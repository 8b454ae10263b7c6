/** Several schedulers on one queue: the locks of SchedulerLocks around the draining of
    ScheduledDrain, with reading the due set and moving it as separate steps
    (rq/scheduler.py). */
module SchedulerFleet {
  import opened Common
  import L = SchedulerLocks
  import D = ScheduledDrain

  /** One queue name and everyone who works on it. `drains` is what schedulers in the
      middle of a drain have read. The rest is history: ids put into the registry or
      the queue by clients, taken by workers, removed from the registry by clients, and
      removed by schedulers that found no hash. */
  datatype Fleet = Fleet(
    locks: L.System,
    store: D.Store,
    drains: map<L.SchedulerId, seq<D.Entry>>,
    given: multiset<JobId>,
    taken: multiset<JobId>,
    canceled: multiset<JobId>,
    dropped: multiset<JobId>)

  datatype Event =
    | Locks(e: L.Event)
    | Read(i: L.SchedulerId, timestamp: int, chunk: nat)
    | Exec(i: L.SchedulerId)
    | Schedule(entry: D.Entry)
    | Unschedule(id: JobId)
    | Enqueue(id: JobId)
    | WorkerPop
    | Save(id: JobId, job: D.Job)
    | Delete(id: JobId)

  function Ids(r: seq<D.Entry>): seq<JobId> {
    if r == [] then [] else [r[0].id] + Ids(r[1..])
  }

  /** A sorted set lists each member once. */
  predicate Unique(r: seq<D.Entry>) {
    r == [] || (r[0].id !in Ids(r[1..]) && Unique(r[1..]))
  }

  /** The fetched ids without a hash. */
  function Missing(jobs: set<JobId>, es: seq<D.Entry>): seq<JobId> {
    if es == [] then [] else (if es[0].id in jobs then [] else [es[0].id]) + Missing(jobs, es[1..])
  }

  /** ZADD of an id that is not in the set. */
  function Insert(r: seq<D.Entry>, e: D.Entry): seq<D.Entry> {
    if r == [] || e.score < r[0].score then [e] + r else [r[0]] + Insert(r[1..], e)
  }

  /** A scheduler between two commands of its loop: it may be draining, and then does
      nothing else until it has executed the pipeline or crashed. */
  predicate AtWork(s: Fleet, i: L.SchedulerId) {
    i in s.drains
  }

  predicate Enabled(n: QueueName, s: Fleet, e: Event) {
    match e
    case Locks(e) =>
      && L.Enabled(s.locks, e)
      && (e.BeginAcquire? || e.TryName? || e.EndAcquire? || e.Heartbeat? || e.Stop? ==> !AtWork(s, e.i))
    case Read(i, _, _) =>
      && L.Running(s.locks, i) && !s.locks.schedulers[i].acquiring && n in s.locks.schedulers[i].acquired
      && !AtWork(s, i)
    case Exec(i) => AtWork(s, i)
    case WorkerPop => s.store.queue != []
    case _ => true
  }

  function Executed(s: Fleet, i: L.SchedulerId): Fleet
    requires AtWork(s, i)
  {
    s.(store := D.Moved(s.store, s.drains[i]), drains := s.drains - {i},
       dropped := s.dropped + multiset(Missing(s.store.jobs.Keys, s.drains[i])))
  }

  function Apply(n: QueueName, s: Fleet, e: Event): Fleet
    requires Enabled(n, s, e)
  {
    match e
    case Locks(e) => s.(locks := L.Apply(s.locks, e), drains := if e.Crash? then s.drains - {e.i} else s.drains)
    case Read(i, ts, chunk) => s.(drains := s.drains[i := D.Take(D.Due(s.store.registry, ts), chunk)])
    case Exec(i) => Executed(s, i)
    case Schedule(x) =>
      if x.id in Ids(s.store.registry)
        then s.(store := s.store.(registry := Insert(D.Without(s.store.registry, x.id), x)))
        else s.(store := s.store.(registry := Insert(s.store.registry, x)), given := s.given + multiset{x.id})
    case Unschedule(id) =>
      if id in Ids(s.store.registry)
        then s.(store := s.store.(registry := D.Without(s.store.registry, id)), canceled := s.canceled + multiset{id})
        else s
    case Enqueue(id) => s.(store := s.store.(queue := s.store.queue + [id]), given := s.given + multiset{id})
    case WorkerPop =>
      s.(store := s.store.(queue := s.store.queue[1..]), taken := s.taken + multiset{s.store.queue[0]})
    case Save(id, job) => s.(store := s.store.(jobs := s.store.jobs[id := job]))
    case Delete(id) => s.(store := s.store.(jobs := s.store.jobs - {id}))
  }

  const Initial := Fleet(L.Initial, D.Store([], map[], []), map[], multiset{}, multiset{}, multiset{}, multiset{})

  predicate Possible(n: QueueName, s: Fleet, es: seq<Event>)
    decreases |es|
  {
    es == [] || (Enabled(n, s, es[0]) && Possible(n, Apply(n, s, es[0]), es[1..]))
  }

  function Final(n: QueueName, s: Fleet, es: seq<Event>): Fleet
    requires Possible(n, s, es)
    decreases |es|
  {
    if es == [] then s else Final(n, Apply(n, s, es[0]), es[1..])
  }

  /** Nobody takes out of the registry what a scheduler has read and not yet moved. */
  predicate NotLate(s: Fleet, e: Event) {
    e.Unschedule? ==> forall i :: i in s.drains ==> e.id !in Ids(s.drains[i])
  }

  /** Locks are refreshed in time and nothing is unscheduled too late. */
  ghost predicate TimelyRun(n: QueueName, s: Fleet, es: seq<Event>)
    requires Possible(n, s, es)
    decreases |es|
  {
    && L.Timely(s.locks)
    && (es == [] || (NotLate(s, es[0]) && TimelyRun(n, Apply(n, s, es[0]), es[1..])))
  }

  // ---------- The sorted set ----------

  lemma Cons(e: D.Entry, r: seq<D.Entry>)
    ensures Ids([e] + r) == [e.id] + Ids(r)
    ensures Unique([e] + r) <==> e.id !in Ids(r) && Unique(r)
  {
    assert ([e] + r)[1..] == r;
  }

  lemma {:induction false} IdsInsert(r: seq<D.Entry>, e: D.Entry)
    ensures multiset(Ids(Insert(r, e))) == multiset(Ids(r)) + multiset{e.id}
  {
    if r == [] || e.score < r[0].score {
      assert ([e] + r)[1..] == r;
    } else {
      IdsInsert(r[1..], e);
      assert Insert(r, e)[1..] == Insert(r[1..], e);
    }
  }

  lemma SameMembers(a: seq<JobId>, b: seq<JobId>)
    requires multiset(a) == multiset(b)
    ensures forall x :: x in a <==> x in b
  {
    forall x ensures x in a <==> x in b { assert x in multiset(a) <==> x in multiset(b); }
  }

  lemma {:induction false} InsertUnique(r: seq<D.Entry>, e: D.Entry)
    requires Unique(r) && e.id !in Ids(r)
    ensures Unique(Insert(r, e))
  {
    if r == [] || e.score < r[0].score {
      Cons(e, r);
    } else {
      InsertUnique(r[1..], e);
      IdsInsert(r[1..], e);
      SameMembers(Ids(Insert(r[1..], e)), Ids(r[1..]) + [e.id]);
      Cons(r[0], Insert(r[1..], e));
    }
  }

  lemma {:induction false} WithoutNone(r: seq<D.Entry>, id: JobId)
    requires id !in Ids(r)
    ensures D.Without(r, id) == r
  {
    if r != [] { WithoutNone(r[1..], id); }
  }

  lemma WithoutFirst(r: seq<D.Entry>, id: JobId)
    requires r != []
    ensures D.Without(r, id) == if r[0].id == id then D.Without(r[1..], id) else [r[0]] + D.Without(r[1..], id)
  {
    assert [] + D.Without(r[1..], id) == D.Without(r[1..], id);
  }

  lemma {:induction false} IdsWithout(r: seq<D.Entry>, id: JobId)
    requires Unique(r) && id in Ids(r)
    ensures multiset(Ids(D.Without(r, id))) + multiset{id} == multiset(Ids(r))
  {
    WithoutFirst(r, id);
    Counted(r);
    if r[0].id == id {
      WithoutNone(r[1..], id);
    } else {
      IdsWithout(r[1..], id);
      Cons(r[0], D.Without(r[1..], id));
    }
  }

  lemma Counted(r: seq<D.Entry>)
    requires r != []
    ensures multiset(Ids(r)) == multiset{r[0].id} + multiset(Ids(r[1..]))
  {
  }

  lemma {:induction false} WithoutMember(r: seq<D.Entry>, id: JobId, x: JobId)
    ensures x in Ids(D.Without(r, id)) <==> x in Ids(r) && x != id
  {
    if r != [] {
      WithoutMember(r[1..], id, x);
      WithoutFirst(r, id);
      Cons(r[0], D.Without(r[1..], id));
    }
  }

  lemma {:induction false} WithoutUnique(r: seq<D.Entry>, id: JobId)
    requires Unique(r)
    ensures Unique(D.Without(r, id))
  {
    if r != [] {
      WithoutUnique(r[1..], id);
      WithoutMember(r[1..], id, r[0].id);
      WithoutFirst(r, id);
      Cons(r[0], D.Without(r[1..], id));
    }
  }

  // ---------- Moving a batch ----------

  /** Entries of different ids, all in the registry. */
  ghost predicate Batch(r: seq<D.Entry>, es: seq<D.Entry>) {
    Unique(es) && forall x :: x in Ids(es) ==> x in Ids(r)
  }

  lemma BatchRest(r: seq<D.Entry>, es: seq<D.Entry>)
    requires Batch(r, es) && es != []
    ensures es[0].id in Ids(r) && Batch(D.Without(r, es[0].id), es[1..])
  {
    forall x | x in Ids(es[1..]) ensures x in Ids(D.Without(r, es[0].id)) {
      assert x in Ids(es);
      WithoutMember(r, es[0].id, x);
    }
  }

  lemma OneMoved(s: D.Store, id: JobId)
    requires Unique(s.registry) && id in Ids(s.registry)
    ensures var t := D.PushOne(s, id).(registry := D.Without(s.registry, id));
      && t.jobs.Keys == s.jobs.Keys && Unique(t.registry)
      && multiset(Ids(t.registry)) + multiset(t.queue) + (if id in s.jobs then multiset{} else multiset{id})
         == multiset(Ids(s.registry)) + multiset(s.queue)
  {
    IdsWithout(s.registry, id);
    WithoutUnique(s.registry, id);
    OnePushed(s, id);
    Exchange(multiset(Ids(D.Without(s.registry, id))), multiset(s.queue), multiset{id});
  }

  lemma OnePushed(s: D.Store, id: JobId)
    ensures var t := D.PushOne(s, id);
      && t.jobs.Keys == s.jobs.Keys
      && multiset(t.queue) == if id in s.jobs then multiset(s.queue) + multiset{id} else multiset(s.queue)
  {
  }

  lemma Exchange(a: multiset<JobId>, b: multiset<JobId>, c: multiset<JobId>)
    ensures a + (b + c) + multiset{} == (a + c) + b && a + b + c == (a + c) + b
  {
  }

  /** Registry, queue and dropped ids together keep every id as often as it was there. */
  lemma {:induction false} MovedConserves(s: D.Store, es: seq<D.Entry>)
    requires Unique(s.registry) && Batch(s.registry, es)
    ensures var t := D.Moved(s, es);
      && Unique(t.registry)
      && multiset(Ids(t.registry)) + multiset(t.queue) + multiset(Missing(s.jobs.Keys, es))
         == multiset(Ids(s.registry)) + multiset(s.queue)
    decreases |es|
  {
    if es != [] {
      var id := es[0].id;
      var t := D.PushOne(s, id).(registry := D.Without(s.registry, id));
      BatchRest(s.registry, es);
      OneMoved(s, id);
      MovedConserves(t, es[1..]);
    }
  }

  lemma {:induction false} DueIsBatch(r: seq<D.Entry>, ts: int)
    requires Unique(r)
    ensures Batch(r, D.Due(r, ts))
  {
    if r != [] {
      DueIsBatch(r[1..], ts);
      Cons(r[0], D.Due(r[1..], ts));
      assert [] + D.Due(r[1..], ts) == D.Due(r[1..], ts);
    }
  }

  lemma {:induction false} TakeUnique(es: seq<D.Entry>, n: nat)
    requires Unique(es)
    ensures Unique(D.Take(es, n)) && forall x :: x in Ids(D.Take(es, n)) ==> x in Ids(es)
    decreases n
  {
    if n == 0 || es == [] {
      assert D.Take(es, n) == [];
    } else {
      TakeUnique(es[1..], n - 1);
      assert D.Take(es, n) == [es[0]] + D.Take(es[1..], n - 1);
      Cons(es[0], D.Take(es[1..], n - 1));
    }
  }

  lemma {:induction false} MovedDelivers(s: D.Store, es: seq<D.Entry>, id: JobId)
    requires Unique(es)
    ensures var t := D.Moved(s, es);
      && (id in Ids(t.registry) <==> id in Ids(s.registry) && id !in Ids(es))
      && multiset(t.queue)[id] == multiset(s.queue)[id] + if id in Ids(es) && id in s.jobs then 1 else 0
    decreases |es|
  {
    if es != [] {
      var x := es[0].id;
      OnePushed(s, x);
      WithoutMember(s.registry, x, id);
      MovedDelivers(D.PushOne(s, x).(registry := D.Without(s.registry, x)), es[1..], id);
    }
  }

  // ---------- The invariant ----------

  /** Only a running scheduler that holds the name is in the middle of a drain. */
  ghost predicate ReadersHold(n: QueueName, s: Fleet) {
    forall i :: i in s.drains ==> L.Running(s.locks, i) && n in s.locks.schedulers[i].acquired
  }

  ghost predicate ReadsAreBatches(s: Fleet) {
    forall i :: i in s.drains ==> Batch(s.store.registry, s.drains[i])
  }

  predicate Conserved(s: Fleet) {
    multiset(Ids(s.store.registry)) + multiset(s.store.queue) + s.taken + s.canceled + s.dropped == s.given
  }

  ghost predicate Invariant(n: QueueName, s: Fleet) {
    L.Invariant(s.locks) && ReadersHold(n, s) && Unique(s.store.registry) && ReadsAreBatches(s) && Conserved(s)
  }

  lemma OneReader(n: QueueName, s: Fleet, i: L.SchedulerId, k: L.SchedulerId)
    requires Invariant(n, s) && i in s.drains && k in s.drains
    ensures i == k
  {
    L.HeldIsPresent(s.locks, i, n);
    L.HeldIsPresent(s.locks, k, n);
  }

  lemma LocksKeep(n: QueueName, s: Fleet, e: L.Event)
    requires Invariant(n, s) && Enabled(n, s, Locks(e)) && L.Timely(L.Apply(s.locks, e))
    ensures Invariant(n, Apply(n, s, Locks(e)))
  {
    L.StepKeeps(s.locks, e);
  }

  lemma ExecKeeps(n: QueueName, s: Fleet, i: L.SchedulerId)
    requires Invariant(n, s) && i in s.drains
    ensures Invariant(n, Executed(s, i))
  {
    MovedConserves(s.store, s.drains[i]);
    assert Executed(s, i).drains.Keys == {} by {
      forall k | k in s.drains ensures k == i { OneReader(n, s, i, k); }
    }
  }

  lemma ScheduleKeeps(n: QueueName, s: Fleet, x: D.Entry)
    requires Invariant(n, s)
    ensures Invariant(n, Apply(n, s, Schedule(x)))
  {
    var t, r := Apply(n, s, Schedule(x)), s.store.registry;
    if x.id in Ids(r) {
      Rescored(r, x);
    } else {
      InsertUnique(r, x);
      IdsInsert(r, x);
      SameMembers(Ids(t.store.registry), Ids(r) + [x.id]);
    }
  }

  lemma Rescored(r: seq<D.Entry>, x: D.Entry)
    requires Unique(r) && x.id in Ids(r)
    ensures var r' := Insert(D.Without(r, x.id), x);
      Unique(r') && multiset(Ids(r')) == multiset(Ids(r)) && forall id :: id in Ids(r) <==> id in Ids(r')
  {
    WithoutUnique(r, x.id);
    WithoutMember(r, x.id, x.id);
    IdsWithout(r, x.id);
    InsertUnique(D.Without(r, x.id), x);
    IdsInsert(D.Without(r, x.id), x);
    SameMembers(Ids(r), Ids(Insert(D.Without(r, x.id), x)));
  }

  lemma UnscheduleKeeps(n: QueueName, s: Fleet, id: JobId)
    requires Invariant(n, s) && NotLate(s, Unschedule(id))
    ensures Invariant(n, Apply(n, s, Unschedule(id)))
  {
    var r := s.store.registry;
    if id in Ids(r) {
      IdsWithout(r, id);
      WithoutUnique(r, id);
      forall i | i in s.drains ensures Batch(D.Without(r, id), s.drains[i]) {
        forall x | x in Ids(s.drains[i]) ensures x in Ids(D.Without(r, id)) { WithoutMember(r, id, x); }
      }
    }
  }

  lemma ReadKeeps(n: QueueName, s: Fleet, e: Event)
    requires Invariant(n, s) && Enabled(n, s, e) && e.Read?
    ensures Invariant(n, Apply(n, s, e))
  {
    DueIsBatch(s.store.registry, e.timestamp);
    TakeUnique(D.Due(s.store.registry, e.timestamp), e.chunk);
  }

  lemma WorkerPopKeeps(n: QueueName, s: Fleet)
    requires Invariant(n, s) && s.store.queue != []
    ensures Invariant(n, Apply(n, s, WorkerPop))
  {
    var q := s.store.queue;
    assert q == [q[0]] + q[1..];
    assert multiset(q) == multiset{q[0]} + multiset(q[1..]);
    Regroup(multiset(Ids(s.store.registry)), multiset(q[1..]), multiset{q[0]}, s.taken);
  }

  lemma Regroup(r: multiset<JobId>, q: multiset<JobId>, x: multiset<JobId>, taken: multiset<JobId>)
    ensures r + (x + q) + taken == r + q + (taken + x)
  {
  }

  lemma EnqueueKeeps(n: QueueName, s: Fleet, id: JobId)
    requires Invariant(n, s)
    ensures Invariant(n, Apply(n, s, Enqueue(id)))
  {
    assert multiset(s.store.queue + [id]) == multiset(s.store.queue) + multiset{id};
  }

  lemma StepKeeps(n: QueueName, s: Fleet, e: Event)
    requires Invariant(n, s) && Enabled(n, s, e) && NotLate(s, e) && L.Timely(Apply(n, s, e).locks)
    ensures Invariant(n, Apply(n, s, e))
  {
    if e.Locks? { LocksKeep(n, s, e.e); }
    else if e.Read? { ReadKeeps(n, s, e); }
    else if e.Exec? { ExecKeeps(n, s, e.i); }
    else if e.Schedule? { ScheduleKeeps(n, s, e.entry); }
    else if e.Unschedule? { UnscheduleKeeps(n, s, e.id); }
    else if e.Enqueue? { EnqueueKeeps(n, s, e.id); }
    else if e.WorkerPop? { WorkerPopKeeps(n, s); }
  }

  lemma {:induction false} RunKeeps(n: QueueName, s: Fleet, es: seq<Event>)
    requires Invariant(n, s) && Possible(n, s, es) && TimelyRun(n, s, es)
    ensures Invariant(n, Final(n, s, es))
    decreases |es|
  {
    if es != [] {
      StepKeeps(n, s, es[0]);
      RunKeeps(n, Apply(n, s, es[0]), es[1..]);
    }
  }

  /** However many schedulers come, go and crash, every id put into the registry or the
      queue is in exactly one of: the registry, the queue, a worker, or what was removed.
      No due job is pushed twice and none gets lost between the two. */
  lemma EachDueJobIsPushedOnce(n: QueueName, es: seq<Event>)
    requires Possible(n, Initial, es) && TimelyRun(n, Initial, es)
    ensures var s := Final(n, Initial, es);
      && Unique(s.store.registry)
      && multiset(Ids(s.store.registry)) + multiset(s.store.queue) + s.taken + s.canceled + s.dropped == s.given
  {
    RunKeeps(n, Initial, es);
  }

  /** In any such run a pipeline takes exactly the ids that were read out of the registry
      and pushes each of them that has a hash exactly once, whatever happened between
      the two steps. */
  lemma ExecDelivers(n: QueueName, es: seq<Event>, i: L.SchedulerId, id: JobId)
    requires Possible(n, Initial, es) && TimelyRun(n, Initial, es)
    requires Enabled(n, Final(n, Initial, es), Exec(i))
    ensures var s := Final(n, Initial, es); var t := Apply(n, s, Exec(i));
      var read := id in Ids(s.drains[i]);
      && (id in Ids(t.store.registry) <==> id in Ids(s.store.registry) && !read)
      && multiset(t.store.queue)[id] == multiset(s.store.queue)[id] + if read && id in s.store.jobs then 1 else 0
  {
    RunKeeps(n, Initial, es);
    var s := Final(n, Initial, es);
    MovedDelivers(s.store, s.drains[i], id);
  }

  /** A turn with a large enough chunk leaves nothing due. */
  lemma TurnLeavesNothingDue(n: QueueName, s: Fleet, i: L.SchedulerId, ts: int, chunk: nat)
    requires Enabled(n, s, Read(i, ts, chunk)) && |D.Due(s.store.registry, ts)| <= chunk
    ensures var t := Apply(n, s, Read(i, ts, chunk));
      Enabled(n, t, Exec(i)) && D.Due(Apply(n, t, Exec(i)).store.registry, ts) == []
  {
    var due := D.Due(s.store.registry, ts);
    var left := D.Moved(s.store, due).registry;
    forall e | e in left ensures !D.IsDue(e, ts) {
      D.RegistryAfterMoved(s.store, due, e);
      D.DueMember(s.store.registry, ts, e);
    }
    D.NoneDue(left, ts);
  }

  // ---------- The conditions are needed ----------

  /** How often an id is somewhere, or went somewhere. */
  function Tally(s: Fleet, id: JobId): nat {
    multiset(Ids(s.store.registry))[id] + multiset(s.store.queue)[id] + s.taken[id] + s.canceled[id] + s.dropped[id]
  }

  lemma Unscheduled(n: QueueName, s: Fleet, id: JobId)
    requires Unique(s.store.registry) && id in Ids(s.store.registry)
    ensures var t := Apply(n, s, Unschedule(id));
      id !in Ids(t.store.registry) && id in t.canceled && Tally(t, id) == Tally(s, id)
  {
    IdsWithout(s.store.registry, id);
    WithoutMember(s.store.registry, id, id);
  }

  /** An id unscheduled after a scheduler has read it is pushed all the same: it is
      canceled and on the queue, and counted once too often. */
  lemma UnscheduledTooLate(n: QueueName, s: Fleet, i: L.SchedulerId, x: D.Entry)
    requires Invariant(n, s) && i in s.drains && s.drains[i] == [x] && x.id in s.store.jobs
    ensures var t := Apply(n, s, Unschedule(x.id));
      && Enabled(n, t, Exec(i))
      && var u := Apply(n, t, Exec(i));
         x.id in u.canceled && x.id in u.store.queue && Tally(u, x.id) == u.given[x.id] + 1
  {
    assert Ids(s.drains[i]) == [x.id];
    assert Tally(s, x.id) == s.given[x.id];
    Unscheduled(n, s, x.id);
    var t := Apply(n, s, Unschedule(x.id));
    PushedAlthoughGone(n, t, i, x);
  }

  /** A job put off to another time after a scheduler has read its id is pushed at once
      all the same, and its new time is lost, whatever it is. */
  lemma RescheduledTooLate(n: QueueName, s: Fleet, i: L.SchedulerId, y: D.Entry)
    requires Invariant(n, s) && i in s.drains && y.id in Ids(s.drains[i]) && y.id in s.store.jobs
    ensures var t := Apply(n, s, Schedule(y));
      && y in t.store.registry && Enabled(n, t, Exec(i))
      && var u := Apply(n, t, Exec(i));
         && y.id !in Ids(u.store.registry)
         && multiset(u.store.queue)[y.id] == multiset(s.store.queue)[y.id] + 1
  {
    var t := Apply(n, s, Schedule(y));
    InsertHolds(if y.id in Ids(s.store.registry) then D.Without(s.store.registry, y.id) else s.store.registry, y);
    MovedDelivers(t.store, t.drains[i], y.id);
  }

  lemma {:induction false} InsertHolds(r: seq<D.Entry>, e: D.Entry)
    ensures e in Insert(r, e)
  {
    if r != [] && r[0].score <= e.score { InsertHolds(r[1..], e); }
  }

  lemma PushedAlthoughGone(n: QueueName, t: Fleet, i: L.SchedulerId, x: D.Entry)
    requires i in t.drains && t.drains[i] == [x] && x.id in t.store.jobs && x.id !in Ids(t.store.registry)
    ensures var u := Apply(n, t, Exec(i));
      && x.id in u.store.queue && Tally(u, x.id) == Tally(t, x.id) + 1
      && u.given == t.given && u.canceled == t.canceled
  {
    WithoutNone(t.store.registry, x.id);
    OneDrained(t.store, x);
    OnePushed(t.store, x.id);
    assert Missing(t.store.jobs.Keys, [x]) == [];
    assert x.id in multiset(Apply(n, t, Exec(i)).store.queue);
  }

  function LockEvents(es: seq<L.Event>): seq<Event> {
    if es == [] then [] else [Locks(es[0])] + LockEvents(es[1..])
  }

  lemma {:induction false} RunInTwo(n: QueueName, s: Fleet, a: seq<Event>, b: seq<Event>)
    requires Possible(n, s, a) && Possible(n, Final(n, s, a), b)
    ensures Possible(n, s, a + b) && Final(n, s, a + b) == Final(n, Final(n, s, a), b)
    decreases |a|
  {
    if a == [] {
      assert a + b == b;
    } else {
      assert (a + b)[1..] == a[1..] + b;
      RunInTwo(n, Apply(n, s, a[0]), a[1..], b);
    }
  }

  lemma {:induction false} LocksRun(n: QueueName, s: Fleet, es: seq<L.Event>)
    requires s.drains == map[] && L.Possible(s.locks, es)
    ensures Possible(n, s, LockEvents(es))
    ensures Final(n, s, LockEvents(es)) == s.(locks := L.Final(s.locks, es))
    decreases |es|
  {
    if es != [] {
      assert LockEvents(es)[1..] == LockEvents(es[1..]);
      assert Apply(n, s, Locks(es[0])) == s.(locks := L.Apply(s.locks, es[0]));
      LocksRun(n, s.(locks := L.Apply(s.locks, es[0])), es[1..]);
    }
  }

  predicate Holder(n: QueueName, s: Fleet, i: L.SchedulerId) {
    L.Running(s.locks, i) && !s.locks.schedulers[i].acquiring && n in s.locks.schedulers[i].acquired
  }

  /** Two schedulers drain one due job side by side. */
  function SideBySide(i: L.SchedulerId, k: L.SchedulerId, x: D.Entry, job: D.Job): seq<Event> {
    [Save(x.id, job), Schedule(x)] + [Read(i, x.score, 1), Read(k, x.score, 1)] + [Exec(i), Exec(k)]
  }

  lemma TwoSteps(n: QueueName, s: Fleet, e: Event, f: Event)
    requires Enabled(n, s, e) && Enabled(n, Apply(n, s, e), f)
    ensures Possible(n, s, [e, f]) && Final(n, s, [e, f]) == Apply(n, Apply(n, s, e), f)
  {
    var t := Apply(n, s, e);
    assert [e, f][1..] == [f] && [f][1..] == [];
    assert Possible(n, Apply(n, t, f), []);
    assert Possible(n, t, [f]) && Final(n, t, [f]) == Apply(n, t, f);
  }

  lemma SideBySideRuns(n: QueueName, s: Fleet, i: L.SchedulerId, k: L.SchedulerId, x: D.Entry, job: D.Job)
    requires i != k && Holder(n, s, i) && Holder(n, s, k) && s.drains == map[] && s.store == Initial.store
    requires 0 <= x.score
    ensures Possible(n, s, SideBySide(i, k, x, job))
    ensures Final(n, s, SideBySide(i, k, x, job)).store.queue == [x.id, x.id]
  {
    TwoSteps(n, s, Save(x.id, job), Schedule(x));
    var s2 := Final(n, s, [Save(x.id, job), Schedule(x)]);
    assert s2.store == D.Store([x], map[x.id := job], []);
    assert D.Take(D.Due([x], x.score), 1) == [x];
    TwoSteps(n, s2, Read(i, x.score, 1), Read(k, x.score, 1));
    var s4 := Final(n, s2, [Read(i, x.score, 1), Read(k, x.score, 1)]);
    assert s4.drains == map[i := [x], k := [x]] && s4.store == s2.store;
    TwoSteps(n, s4, Exec(i), Exec(k));
    OneDrained(s4.store, x);
    var s5 := Apply(n, s4, Exec(i));
    OneDrained(s5.store, x);
    assert Final(n, s4, [Exec(i), Exec(k)]).store.queue == [x.id, x.id];
    RunInTwo(n, s, [Save(x.id, job), Schedule(x)], [Read(i, x.score, 1), Read(k, x.score, 1)]);
    RunInTwo(n, s, [Save(x.id, job), Schedule(x)] + [Read(i, x.score, 1), Read(k, x.score, 1)], [Exec(i), Exec(k)]);
  }

  lemma OneDrained(s: D.Store, x: D.Entry)
    ensures D.Moved(s, [x]) == D.PushOne(s, x.id).(registry := D.Without(s.registry, x.id))
  {
  }

  /** A scheduler that refreshes its lock no sooner than it expires, and one that takes
      the name over at that moment, push one job twice. */
  lemma LateSchedulerPushesTwice(n: QueueName, i: L.SchedulerId, k: L.SchedulerId, interval: nat, x: D.Entry, job: D.Job)
    requires i != k && 0 <= x.score
    ensures var late := [L.Boot(i, {n}, interval), L.Boot(k, {n}, interval)]
        + L.AcquireOne(i, n) + [L.Tick(interval + 60)] + L.AcquireOne(k, n);
      var es := LockEvents(late) + SideBySide(i, k, x, job);
      Possible(n, Initial, es) && Final(n, Initial, es).store.queue == [x.id, x.id]
  {
    var late := [L.Boot(i, {n}, interval), L.Boot(k, {n}, interval)]
      + L.AcquireOne(i, n) + [L.Tick(interval + 60)] + L.AcquireOne(k, n);
    L.LateByNothing(i, k, n, interval);
    LocksRun(n, Initial, late);
    SideBySideRuns(n, Initial.(locks := L.Final(L.Initial, late)), i, k, x, job);
    RunInTwo(n, Initial, LockEvents(late), SideBySide(i, k, x, job));
  }
}
