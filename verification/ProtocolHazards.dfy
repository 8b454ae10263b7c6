/** Where the wake-up protocol does not keep its promise: which transactions wake a
    job, exactly, and for each condition the theorems place on a run, a run from the
    empty database that breaks the promise without it. */
module ProtocolHazards {
  import opened Common
  import opened DependencyStore
  import opened DependencyProtocol
  import opened WatchedProtocol

  // ---------- Reaching a state ----------

  ghost predicate OnceStep(p: Protocol, e: Event, p': Protocol) {
    Enabled(p, e) && FirstFinish(p, e) && p' == Apply(p, e)
  }

  /** A serial run in which every job succeeds at most once, with the states it passes. */
  ghost predicate OnceRun(es: seq<Event>, states: seq<Protocol>) {
    && |states| == |es| + 1 && states[0] == Start
    && forall k {:trigger es[k]} :: 0 <= k < |es| ==> OnceStep(states[k], es[k], states[k + 1])
  }

  ghost predicate Reachable(p: Protocol) {
    exists es, states :: OnceRun(es, states) && states[|es|] == p
  }

  lemma StartReachable()
    ensures Reachable(Start)
  {
    assert OnceRun([], [Start]);
  }

  lemma ReachStep(p: Protocol, e: Event)
    requires Reachable(p) && Enabled(p, e) && FirstFinish(p, e)
    ensures Reachable(Apply(p, e))
  {
    var es, states :| OnceRun(es, states) && states[|es|] == p;
    var es', states' := es + [e], states + [Apply(p, e)];
    forall k | 0 <= k < |es'| ensures OnceStep(states'[k], es'[k], states'[k + 1]) {
      if k < |es| { assert es'[k] == es[k]; }
    }
    assert OnceRun(es', states');
  }

  lemma {:induction false} OnceRunStructure(es: seq<Event>, states: seq<Protocol>, k: nat)
    requires OnceRun(es, states) && k <= |es|
    ensures StoreStructure(states[k].store) && Accounted(states[k])
  {
    if k > 0 {
      OnceRunStructure(es, states, k - 1);
      var e := es[k - 1];
      assert OnceStep(states[k - 1], e, states[k]);
      StoreStructureKept(states[k - 1], e);
      AccountedKept(states[k - 1], e);
    }
  }

  lemma ReachableStructure(p: Protocol)
    requires Reachable(p)
    ensures StoreStructure(p.store) && Accounted(p)
  {
    var es, states :| OnceRun(es, states) && states[|es|] == p;
    OnceRunStructure(es, states, |es|);
  }

  // ---------- Which transactions wake a job, exactly ----------

  /** What the code asks of the dependencies other than the one it scans for. */
  ghost predicate OthersMet(s: Store, x: JobId, c: JobId)
    requires c in s.jobs
  {
    forall d :: d in s.jobs[c].deps && d != x && d in s.jobs ==>
      s.jobs[d].status == Finished || (s.jobs[d].status == Failed && s.jobs[c].allowFailures)
  }

  lemma MetExactly(s: Store, x: JobId, st: JobStatus, c: JobId)
    requires StoreStructure(s) && c in Members(s.dependents, x)
    ensures c in s.jobs && (MetFor(s, x, st, c) <==>
      st != Canceled && st != Stopped && (st == Failed ==> s.jobs[c].allowFailures) && OthersMet(s, x, c))
  {
    MetForExactly(s, x, st, c);
  }

  /** The success of x can push its dependent c, one that waits or one that does not any
      more, if and only if x is not marked canceled, stopped or failed and every other
      dependency is finished, gone, or failed where allowed. A waiting one is then always
      pushed. Nothing else counts: not whether c was pushed before, nor whether the other
      dependencies ever succeeded. */
  lemma PushesExactly(p: Protocol, x: JobId, c: JobId)
    requires StoreStructure(p.store) && x in p.store.jobs && p.store.jobs[x].status != Deferred
    requires c in Members(p.store.dependents, x)
    ensures c in p.store.jobs
    ensures var st := p.store.jobs[x].status;
      (exists order :: Enabled(p, FinishJob(x, order)) && c in order)
      <==> st != Canceled && st != Stopped && (st == Failed ==> p.store.jobs[c].allowFailures) && OthersMet(p.store, x, c)
    ensures var st := p.store.jobs[x].status;
      p.store.jobs[c].status == Deferred ==> forall order :: Enabled(p, FinishJob(x, order)) ==>
        (c in order <==>
          st != Canceled && st != Stopped && (st == Failed ==> p.store.jobs[c].allowFailures) && OthersMet(p.store, x, c))
  {
    var s := p.store;
    MetExactly(s, x, s.jobs[x].status, c);
    if Met(s, x, c) {
      var order := Ordered(set j | j in Members(s.dependents, x) && j in s.jobs && Met(s, x, j));
      assert Enabled(p, FinishJob(x, order)) && c in order;
    }
  }

  /** The same for a scan after a failure, with the status that scan goes by. */
  lemma RescanPushesExactly(p: Protocol, x: JobId, local: Option<JobStatus>, c: JobId)
    requires StoreStructure(p.store) && x in p.store.jobs && (local == None || local == Some(Failed))
    requires c in Members(p.store.dependents, x)
    ensures c in p.store.jobs
    ensures var st := if local.Some? then local.value else p.store.jobs[x].status;
      (exists order :: Enabled(p, Rescan(x, order, local)) && c in order)
      <==> st != Canceled && st != Stopped && (st == Failed ==> p.store.jobs[c].allowFailures) && OthersMet(p.store, x, c)
  {
    var s, st := p.store, StatusSeen(p.store, x, local);
    MetExactly(s, x, st, c);
    if MetFor(s, x, st, c) {
      var order := Ordered(set j | j in Members(s.dependents, x) && j in s.jobs && MetFor(s, x, st, j));
      assert c in order;
      assert order != [];
      assert Enabled(p, Rescan(x, order, local));
    }
  }

  lemma Ordered(ids: set<JobId>) returns (order: seq<JobId>)
    ensures NoDup(order) && forall j :: j in order <==> j in ids
    decreases |ids|
  {
    if ids == {} {
      order := [];
    } else {
      var j :| j in ids;
      var rest := Ordered(ids - {j});
      order := [j] + rest;
    }
  }

  // ---------- Short scripts ----------

  function Hash(q: QueueName, deps: seq<JobId>): JobHash {
    JobHash(JobStatus.Queued, q, deps, false, false)
  }

  ghost predicate SameElsewhere(p: Protocol, p': Protocol, x: JobId) {
    && p'.store.jobs.Keys == p.store.jobs.Keys + {x}
    && (forall j :: j in p.store.jobs && j != x ==> p'.store.jobs[j] == p.store.jobs[j])
    && (forall j :: j != x ==> Pushes(p', j) == Pushes(p, j))
    && p'.cleared == p.cleared && p'.complete - {x} == p.complete - {x}
    && p'.successes == p.successes
  }

  /** x is enqueued without dependencies and a worker starts it. */
  lemma EnqueueAndStart(p: Protocol, x: JobId, q: QueueName) returns (p': Protocol)
    requires Reachable(p) && x !in p.store.jobs && x !in p.cleared
    ensures Reachable(p') && SameElsewhere(p, p', x)
    ensures p'.store.jobs[x] == Hash(q, []).(status := JobStatus.Started)
    ensures p'.store.dependents == p.store.dependents
  {
    var p1 := EnqueueFree(p, x, q);
    p' := Restatus(p1, x, JobStatus.Started);
  }

  lemma EnqueueFree(p: Protocol, x: JobId, q: QueueName) returns (p': Protocol)
    requires Reachable(p) && x !in p.store.jobs && x !in p.cleared
    ensures Reachable(p') && SameElsewhere(p, p', x)
    ensures p'.store.jobs[x] == Hash(q, [])
    ensures p'.store.dependents == p.store.dependents
  {
    var p1 := Apply(p, ClearJob(x, Hash(q, [])));
    ReachStep(p, ClearJob(x, Hash(q, [])));
    p' := Apply(p1, PushCleared(x, false));
    ReachStep(p1, PushCleared(x, false));
  }

  /** c, with the hash h, is enqueued while its dependency x has not finished. */
  lemma ParkBehind(p: Protocol, c: JobId, h: JobHash, x: JobId) returns (p': Protocol)
    requires Reachable(p) && c !in p.store.jobs && c !in p.cleared
    requires x in h.deps && Pending(p.store, x)
    ensures Reachable(p') && SameElsewhere(p, p', c)
    ensures p'.store.jobs[c] == h.(status := Deferred)
    ensures forall d ::
      Members(p'.store.dependents, d) == Members(p.store.dependents, d) + (if d in h.deps then {c} else {})
    ensures c in p'.complete <==> c in p.complete || forall d :: d in h.deps ==> d in p.store.jobs
    ensures Pushes(p', c) == Pushes(p, c)
  {
    var e := ParkJob(c, h);
    p' := Apply(p, e);
    ReachStep(p, e);
    ParkIsParked(p.store, c, h);
  }

  /** The usual beginning: c waits for the running job x. */
  lemma WaitingChild(x: JobId, c: JobId, q: QueueName, deps: seq<JobId>) returns (p: Protocol)
    requires x != c && x in deps && c !in deps
    ensures Reachable(p) && p.store.jobs.Keys == {x, c} && p.cleared == map[] && p.successes == map[]
    ensures p.store.jobs[x] == Hash(q, []).(status := JobStatus.Started)
    ensures p.store.jobs[c] == Hash(q, deps).(status := Deferred)
    ensures forall d :: Members(p.store.dependents, d) == if d in deps then {c} else {}
    ensures Pushes(p, c) == 0
    ensures c in p.complete ==> forall d :: d in deps ==> d == x
  {
    StartReachable();
    var p1 := EnqueueAndStart(Start, x, q);
    assert c !in p1.complete - {x} && Pushes(Start, c) == 0;
    p := ParkBehind(p1, c, Hash(q, deps), x);
  }

  /** Another beginning: c waits for the two running jobs a and b. */
  lemma TwoParents(a: JobId, b: JobId, c: JobId, q: QueueName, allowFailures: bool) returns (p: Protocol)
    requires a != b && a != c && b != c
    ensures Reachable(p) && p.store.jobs.Keys == {a, b, c} && p.cleared == map[] && p.successes == map[]
    ensures p.store.jobs[a] == p.store.jobs[b] == Hash(q, []).(status := JobStatus.Started)
    ensures p.store.jobs[c] == JobHash(Deferred, q, [a, b], false, allowFailures)
    ensures Members(p.store.dependents, a) == Members(p.store.dependents, b) == {c}
    ensures Pushes(p, c) == 0 && c in p.complete
  {
    StartReachable();
    var p1 := EnqueueAndStart(Start, a, q);
    var p2 := EnqueueAndStart(p1, b, q);
    var h := JobHash(JobStatus.Queued, q, [a, b], false, allowFailures);
    assert Pending(p2.store, a) && a in h.deps && b in h.deps;
    p := ParkBehind(p2, c, h, a);
    assert Pushes(Start, c) == 0 && Pushes(p1, c) == 0 && Pushes(p2, c) == 0;
  }

  lemma Restatus(p: Protocol, x: JobId, st: JobStatus) returns (p': Protocol)
    requires Reachable(p) && x in p.store.jobs
    requires p.store.jobs[x].status != Deferred && st != Finished && st != Deferred
    ensures Reachable(p') && SameElsewhere(p, p', x) && Pushes(p', x) == Pushes(p, x)
    ensures p'.store.jobs[x] == p.store.jobs[x].(status := st)
    ensures p'.store.dependents == p.store.dependents && p'.complete == p.complete
  {
    p' := Apply(p, SetStatus(x, st));
    ReachStep(p, SetStatus(x, st));
  }

  lemma Succeed(p: Protocol, x: JobId, order: seq<JobId>) returns (p': Protocol)
    requires Reachable(p) && Enabled(p, FinishJob(x, order)) && Successes(p, x) == 0
    ensures Reachable(p') && Woken(p.store, p'.store, x, true, order)
    ensures forall j :: Pushes(p', j) == Pushes(p, j) + if j in order then 1 else 0
    ensures forall j :: Successes(p', j) == Successes(p, j) + if j == x then 1 else 0
    ensures p'.cleared == p.cleared && p'.complete == p.complete
  {
    p' := Apply(p, FinishJob(x, order));
    ReachStep(p, FinishJob(x, order));
    FinishIsWoken(p.store, x, order);
  }

  /** With c the only dependent, waking it or not is all there is to choose. */
  lemma OnlyDependent(p: Protocol, x: JobId, c: JobId, order: seq<JobId>)
    requires Reachable(p) && x in p.store.jobs && p.store.jobs[x].status != Deferred
    requires Members(p.store.dependents, x) == {c} && c in p.store.jobs
    requires order == if Met(p.store, x, c) then [c] else []
    ensures Enabled(p, FinishJob(x, order))
  {
  }

  // ---------- 1. The worker's own job is canceled or marked failed meanwhile ----------

  /** When x finishes last, its child stays DEFERRED exactly if the worker finds x canceled
      or stopped, or failed and the child does not allow that. */
  lemma StrandedExactlyWhenBlocked(p: Protocol, x: JobId, order: seq<JobId>, c: JobId)
    requires StoreStructure(p.store) && Enabled(p, FinishJob(x, order))
    requires c in p.store.jobs && p.store.jobs[c].status == Deferred && x in p.store.jobs[c].deps
    requires forall d :: d in p.store.jobs[c].deps && d != x && d in p.store.jobs ==> p.store.jobs[d].status == Finished
    ensures var t, st := Apply(p, FinishJob(x, order)).store, p.store.jobs[x].status;
      && c in t.jobs
      && (t.jobs[c].status == Deferred <==>
            st == Canceled || st == Stopped || (st == Failed && !p.store.jobs[c].allowFailures))
      && (t.jobs[c].status == Deferred && FinishedStay(p, FinishJob(x, order)) ==>
            forall d :: d in t.jobs[c].deps && d in t.jobs ==> t.jobs[d].status == Finished)
  {
    var s, t := p.store, Apply(p, FinishJob(x, order)).store;
    FinishIsWoken(s, x, order);
    assert c in Members(s.dependents, x);
    MetExactly(s, x, s.jobs[x].status, c);
    assert t.jobs[c].status == WokenStatus(s, x, true, order, c);
    if FinishedStay(p, FinishJob(x, order)) { OthersStayFinished(s, t, x, order, c); }
  }

  lemma OthersStayFinished(s: Store, t: Store, x: JobId, order: seq<JobId>, c: JobId)
    requires Woken(s, t, x, true, order) && c in s.jobs && forall j :: j in order ==> !IsFinished(s, j)
    requires forall d :: d in s.jobs[c].deps && d != x && d in s.jobs ==> s.jobs[d].status == Finished
    ensures forall d :: d in t.jobs[c].deps && d in t.jobs ==> t.jobs[d].status == Finished
  {
  }

  /** What still takes such a child out of its state: being canceled itself, or one more
      scan of the dependents of a parent whose status does not block it. Nothing else
      does, and no parent is left whose first success would. */
  lemma StrandedUntilScannedAgain(p: Protocol, e: Event, c: JobId)
    requires StoreStructure(p.store) && Accounted(p) && Enabled(p, e)
    requires c in p.store.jobs && p.store.jobs[c].status == Deferred
    requires forall d :: d in p.store.jobs[c].deps && d in p.store.jobs ==> p.store.jobs[d].status == Finished
    ensures var t := Apply(p, e).store;
      c in t.jobs && (t.jobs[c].status != Deferred <==>
        || (e.SetStatus? && e.j == c)
        || ((e.FinishJob? || e.Rescan?) && e.p in p.store.jobs[c].deps
            && ScanStatus(p, e) != Canceled && ScanStatus(p, e) != Stopped
            && (ScanStatus(p, e) == Failed ==> p.store.jobs[c].allowFailures)))
    ensures e.FinishJob? && e.p in p.store.jobs[c].deps ==> Successes(p, e.p) > 0
  {
    if e.FinishJob? || e.Rescan? {
      ScanWakesExactly(p, e, c);
    }
  }

  lemma ScanWakesExactly(p: Protocol, e: Event, c: JobId)
    requires StoreStructure(p.store) && Enabled(p, e) && (e.FinishJob? || e.Rescan?)
    requires c in p.store.jobs && p.store.jobs[c].status == Deferred
    requires forall d :: d in p.store.jobs[c].deps && d in p.store.jobs ==> p.store.jobs[d].status == Finished
    ensures var t := Apply(p, e).store;
      c in t.jobs && (t.jobs[c].status != Deferred <==>
        e.p in p.store.jobs[c].deps && !Blocked(ScanStatus(p, e), p.store.jobs[c].allowFailures))
  {
    var s := p.store;
    if e.FinishJob? { FinishIsWoken(s, e.p, e.order); } else { WakeIsWoken(s, e.p, e.order); }
    WokenExactly(s, Apply(p, e).store, e.p, ScanStatus(p, e), e.FinishJob?, e.order, c);
  }

  lemma WokenExactly(s: Store, t: Store, x: JobId, st: JobStatus, finishing: bool, order: seq<JobId>, c: JobId)
    requires StoreStructure(s) && ValidOrderFor(s, x, st, order) && Woken(s, t, x, finishing, order)
    requires c in s.jobs && s.jobs[c].status == Deferred && (finishing ==> x != c)
    requires forall d :: d in s.jobs[c].deps ==> IsFinished(s, d) || d !in s.jobs
    ensures c in t.jobs
    ensures t.jobs[c].status != Deferred <==> x in s.jobs[c].deps && !Blocked(st, s.jobs[c].allowFailures)
  {
    if x in s.jobs[c].deps {
      assert c in Members(s.dependents, x);
      MetExactly(s, x, st, c);
    } else {
      assert c !in Members(s.dependents, x);
    }
  }

  /** A parent canceled, stopped or failed as abandoned while its worker is still
      about to report success leaves the child DEFERRED with nothing left to wait for. */
  lemma LostWakeUp(x: JobId, c: JobId, q: QueueName, st: JobStatus) returns (p: Protocol)
    requires x != c && (st == Canceled || st == Stopped || st == Failed)
    ensures Reachable(p) && !NoLostWakeUp(p.store)
    ensures c in p.store.jobs && p.store.jobs[c].status == Deferred && p.store.jobs[c].deps == [x]
    ensures x in p.store.jobs && p.store.jobs[x].status == Finished
  {
    var p2 := WaitingChild(x, c, q, [x]);
    var p3 := Restatus(p2, x, st);
    assert Members(p3.store.dependents, x) == {c};
    OnlyDependent(p3, x, c, []);
    p := Succeed(p3, x, []);
    assert !HasPending(p.store, p.store.jobs[c].deps);
  }

  // ---------- 2. A failed parent is requeued before its dependents are looked at ----------

  /** The re-examination after a failure wakes a child that does not allow failures
      exactly if the parent is no longer marked failed, stopped or canceled. */
  lemma RescanWakesExactlyWhenUnblocked(p: Protocol, x: JobId, order: seq<JobId>, c: JobId)
    requires StoreStructure(p.store) && Enabled(p, Rescan(x, order, None))
    requires c in p.store.jobs && p.store.jobs[c].status == Deferred && !p.store.jobs[c].allowFailures
    requires x in p.store.jobs[c].deps
    requires forall d :: d in p.store.jobs[c].deps && d != x ==> IsFinished(p.store, d)
    ensures var st := p.store.jobs[x].status; c in order <==> st != Failed && st != Stopped && st != Canceled
  {
    MetForExactly(p.store, x, p.store.jobs[x].status, c);
    assert c in Members(p.store.dependents, x);
  }

  /** Such a run: the child is queued although its only dependency is queued too. */
  lemma EarlyStart(x: JobId, c: JobId, q: QueueName) returns (p: Protocol)
    requires x != c
    ensures Reachable(p) && Pending(p.store, x)
    ensures c in p.store.jobs && p.store.jobs[c].status == JobStatus.Queued && p.store.jobs[c].deps == [x]
    ensures Pushes(p, c) == 1
  {
    var p2 := WaitingChild(x, c, q, [x]);
    var p3 := Restatus(p2, x, JobStatus.Failed);
    var p4 := Restatus(p3, x, JobStatus.Queued);
    assert Members(p4.store.dependents, x) == {c};
    p := Examine(p4, x, c, None);
  }

  /** The dependents of x are looked at outside a success, and c is the one to wake. */
  lemma Examine(p: Protocol, x: JobId, c: JobId, local: Option<JobStatus>) returns (p': Protocol)
    requires Reachable(p) && x in p.store.jobs && (local == None || local == Some(Failed))
    requires Members(p.store.dependents, x) == {c} && c in p.store.jobs
    requires !Blocked(StatusSeen(p.store, x, local), p.store.jobs[c].allowFailures) && OthersMet(p.store, x, c)
    ensures Reachable(p') && Woken(p.store, p'.store, x, false, [c])
    ensures forall j :: Pushes(p', j) == Pushes(p, j) + if j == c then 1 else 0
    ensures p'.cleared == p.cleared && p'.complete == p.complete && p'.successes == p.successes
  {
    ReachableStructure(p);
    MetExactly(p.store, x, StatusSeen(p.store, x, local), c);
    p' := Apply(p, Rescan(x, [c], local));
    ReachStep(p, Rescan(x, [c], local));
    WakeIsWoken(p.store, x, [c]);
  }

  // ---------- 3. A dependency did not exist yet when the child was parked ----------

  /** Both parents succeed once and the child is pushed twice: a missing parent
      counts as met for the first, and its own success wakes the child again. */
  lemma PushedTwice(x: JobId, late: JobId, c: JobId, q: QueueName) returns (p: Protocol)
    requires x != c && late != c && x != late
    ensures Reachable(p) && Pushes(p, c) == 2
    ensures c !in p.complete && c in p.store.jobs && p.store.jobs[c].deps == [x, late]
  {
    var p1 := PushedWithoutLate(x, late, c, q);
    var p2 := EnqueueAndStart(p1, late, q);
    assert Members(p2.store.dependents, late) == {c};
    assert c !in p2.complete - {late} && Successes(p1, late) == 0;
    assert p2.store.jobs[c].deps == [x, late] && IsFinished(p2.store, x);
    p := SucceedAndWake(p2, late, c);
  }

  /** The first push, while `late` does not exist. */
  lemma PushedWithoutLate(x: JobId, late: JobId, c: JobId, q: QueueName) returns (p: Protocol)
    requires x != c && late != c && x != late
    ensures Reachable(p) && Pushes(p, c) == 1 && (forall j :: j != x ==> Successes(p, j) == 0)
    ensures p.store.jobs.Keys == {x, c} && p.cleared == map[] && c !in p.complete
    ensures IsFinished(p.store, x) && p.store.jobs[c] == Hash(q, [x, late])
    ensures Members(p.store.dependents, late) == {c} && Members(p.store.dependents, c) == {}
  {
    var p1 := WaitingChild(x, c, q, [x, late]);
    assert late in [x, late] && c !in [x, late];
    p := SucceedAndWake(p1, x, c);
  }

  /** x succeeds and wakes its one dependent c, whose other dependencies are met. */
  lemma SucceedAndWake(p: Protocol, x: JobId, c: JobId) returns (p': Protocol)
    requires Reachable(p) && x in p.store.jobs && p.store.jobs[x].status == JobStatus.Started && x != c
    requires Members(p.store.dependents, x) == {c} && c in p.store.jobs && Successes(p, x) == 0
    requires OthersMet(p.store, x, c)
    ensures Reachable(p') && Woken(p.store, p'.store, x, true, [c])
    ensures forall j :: Pushes(p', j) == Pushes(p, j) + if j == c then 1 else 0
    ensures forall j :: Successes(p', j) == Successes(p, j) + if j == x then 1 else 0
    ensures p'.cleared == p.cleared && p'.complete == p.complete
  {
    ReachableStructure(p);
    MetExactly(p.store, x, JobStatus.Started, c);
    OnlyDependent(p, x, c, [c]);
    p' := Succeed(p, x, [c]);
  }

  /** x succeeds and its one dependent c keeps waiting for the others. */
  lemma SucceedWaking(p: Protocol, x: JobId, c: JobId) returns (p': Protocol)
    requires Reachable(p) && x in p.store.jobs && p.store.jobs[x].status == JobStatus.Started && x != c
    requires Members(p.store.dependents, x) == {c} && c in p.store.jobs && Successes(p, x) == 0
    requires !OthersMet(p.store, x, c)
    ensures Reachable(p') && Woken(p.store, p'.store, x, true, [])
    ensures forall j :: Pushes(p', j) == Pushes(p, j)
    ensures forall j :: Successes(p', j) == Successes(p, j) + if j == x then 1 else 0
    ensures p'.cleared == p.cleared && p'.complete == p.complete
  {
    ReachableStructure(p);
    MetExactly(p.store, x, JobStatus.Started, c);
    OnlyDependent(p, x, c, []);
    p' := Succeed(p, x, []);
  }

  /** On the fast path the same late parent makes the job start before it. */
  lemma StartedBeforeLateParent(late: JobId, c: JobId, q: QueueName) returns (p: Protocol)
    requires late != c
    ensures Reachable(p) && Pushes(p, c) == 1 && Pending(p.store, late)
    ensures c in p.store.jobs && p.store.jobs[c].deps == [late]
  {
    StartReachable();
    var p1 := Apply(Start, ClearJob(c, Hash(q, [late])));
    ReachStep(Start, ClearJob(c, Hash(q, [late])));
    var p2 := EnqueueAndStart(p1, late, q);
    ReachableStructure(p2);
    p := Apply(p2, PushCleared(c, false));
    ReachStep(p2, PushCleared(c, false));
  }

  /** A finished job can be queued again in the same way: its late parent wakes it. */
  lemma FinishedJobWokenAgain(x: JobId, late: JobId, c: JobId, q: QueueName) returns (p: Protocol)
    requires x != c && late != c && x != late
    ensures Reachable(p) && Successes(p, c) == 1 && Pushes(p, c) == 2
    ensures c in p.store.jobs && p.store.jobs[c].status == JobStatus.Queued
  {
    var p1 := FinishedWithoutLate(x, late, c, q);
    var p2 := EnqueueAndStart(p1, late, q);
    assert Members(p2.store.dependents, late) == {c} && p2.store.jobs[c].deps == [x, late];
    assert IsFinished(p2.store, x) && Successes(p2, late) == 0;
    p := SucceedAndWake(p2, late, c);
  }

  lemma FinishedWithoutLate(x: JobId, late: JobId, c: JobId, q: QueueName) returns (p: Protocol)
    requires x != c && late != c && x != late
    ensures Reachable(p) && p.store.jobs.Keys == {x, c} && p.cleared == map[]
    ensures IsFinished(p.store, x) && p.store.jobs[c].deps == [x, late] && Members(p.store.dependents, late) == {c}
    ensures Successes(p, c) == 1 && Successes(p, late) == 0 && Pushes(p, c) == 1
  {
    var p1 := PushedWithoutLate(x, late, c, q);
    assert Successes(p1, c) == 0 && Successes(p1, late) == 0;
    var p2 := Restatus(p1, c, JobStatus.Started);
    assert Members(p2.store.dependents, c) == {};
    p := Succeed(p2, c, []);
  }

  // ---------- 4. A finished parent does not stay finished ----------

  /** a has succeeded, and c still waits for b. */
  lemma FirstOfTwo(a: JobId, b: JobId, c: JobId, q: QueueName) returns (p: Protocol)
    requires a != b && a != c && b != c
    ensures Reachable(p) && p.store.jobs.Keys == {a, b, c} && p.cleared == map[] && c in p.complete
    ensures IsFinished(p.store, a) && p.store.jobs[b].status == JobStatus.Started
    ensures p.store.jobs[c] == JobHash(Deferred, q, [a, b], false, false) && Pushes(p, c) == 0
    ensures Members(p.store.dependents, a) == Members(p.store.dependents, b) == {c}
    ensures Successes(p, a) == 1 && Successes(p, b) == 0
  {
    var p1 := TwoParents(a, b, c, q, false);
    assert p1.store.jobs[c].deps == [a, b] && b in [a, b] && !Satisfied(p1.store, b, false);
    p := SucceedWaking(p1, a, c);
  }

  /** Both parents succeed exactly once, but the first is canceled before the second
      does: the child stays DEFERRED, pushed by nobody. */
  lemma FinishedParentCanceled(a: JobId, b: JobId, c: JobId, q: QueueName) returns (p: Protocol)
    requires a != b && a != c && b != c
    ensures Reachable(p) && Successes(p, a) == 1 && Successes(p, b) == 1 && c in p.complete
    ensures c in p.store.jobs && p.store.jobs[c] == JobHash(Deferred, q, [a, b], false, false) && Pushes(p, c) == 0
  {
    var p1 := FirstOfTwo(a, b, c, q);
    var p2 := Restatus(p1, a, Canceled);
    assert Pushes(p2, c) == 0 && Successes(p2, a) == 1 && Successes(p2, b) == 0;
    assert p2.store.jobs[c].deps == [a, b] && a in [a, b] && !Satisfied(p2.store, a, false);
    p := SucceedWaking(p2, b, c);
  }

  lemma BothOfTwo(a: JobId, b: JobId, c: JobId, q: QueueName) returns (p: Protocol)
    requires a != b && a != c && b != c
    ensures Reachable(p) && p.store.jobs.Keys == {a, b, c}
    ensures IsFinished(p.store, a) && IsFinished(p.store, b) && p.store.jobs[c].deps == [a, b]
    ensures Members(p.store.dependents, a) == {c} && Pushes(p, c) == 1
    ensures Successes(p, a) == 1 && Successes(p, b) == 1
  {
    var p1 := FirstOfTwo(a, b, c, q);
    p := SucceedAndWake(p1, b, c);
  }

  /** A parent that is run again, say by a repeat, pushes a child that has been pushed by
      its last parent already: only that parent's dependents set has been emptied. */
  lemma PushedAgainBySecondSuccess(a: JobId, b: JobId, c: JobId, q: QueueName) returns (p: Protocol, p': Protocol)
    requires a != b && a != c && b != c
    ensures Reachable(p) && Successes(p, a) == 1 && Successes(p, b) == 1 && Pushes(p, c) == 1
    ensures Enabled(p, FinishJob(a, [c])) && p' == Apply(p, FinishJob(a, [c])) && Pushes(p', c) == 2
  {
    var p1 := BothOfTwo(a, b, c, q);
    p := Restatus(p1, a, JobStatus.Started);
    assert Successes(p, a) == 1 && Successes(p, b) == 1 && Pushes(p, c) == 1;
    assert Members(p.store.dependents, a) == {c} && p.store.jobs[c].deps == [a, b] && OthersMet(p.store, a, c);
    p' := FinishAgain(p, a, c);
  }

  lemma FinishAgain(p: Protocol, x: JobId, c: JobId) returns (p': Protocol)
    requires Reachable(p) && x in p.store.jobs && p.store.jobs[x].status == JobStatus.Started
    requires Members(p.store.dependents, x) == {c} && c in p.store.jobs && OthersMet(p.store, x, c)
    ensures Enabled(p, FinishJob(x, [c])) && p' == Apply(p, FinishJob(x, [c])) && Pushes(p', c) == Pushes(p, c) + 1
  {
    ReachableStructure(p);
    MetExactly(p.store, x, JobStatus.Started, c);
    OnlyDependent(p, x, c, [c]);
    p' := Apply(p, FinishJob(x, [c]));
  }

  // ---------- 5. The child allows failures ----------

  /** Two parents fail at the same time, and each of the two examinations that follow
      pushes the child. */
  lemma BothFailuresPush(a: JobId, b: JobId, c: JobId, q: QueueName) returns (p: Protocol)
    requires a != b && a != c && b != c
    ensures Reachable(p) && Pushes(p, c) == 2 && c in p.store.jobs && p.store.jobs[c].allowFailures
    ensures p.successes == map[]
  {
    var p1 := TwoParents(a, b, c, q, true);
    var p2 := Restatus(p1, a, Failed);
    var p3 := Restatus(p2, b, Failed);
    assert p3.store.jobs[c].deps == [a, b];
    assert OthersMet(p3.store, a, c) && OthersMet(p3.store, b, c);
    var p4 := Examine(p3, a, c, None);
    assert Members(p4.store.dependents, b) == {c} && OthersMet(p4.store, b, c);
    p := Examine(p4, b, c, None);
  }

  /** The cleanup of an abandoned job wakes such a child while Redis still shows the
      parent as STARTED. */
  lemma AbandonedParentStillStarted(x: JobId, c: JobId, q: QueueName) returns (p: Protocol)
    requires x != c
    ensures Reachable(p) && x in p.store.jobs && p.store.jobs[x].status == JobStatus.Started
    ensures c in p.store.jobs && p.store.jobs[c].status == JobStatus.Queued && p.store.jobs[c].deps == [x]
  {
    StartReachable();
    var p1 := EnqueueAndStart(Start, x, q);
    var h := JobHash(JobStatus.Queued, q, [x], false, true);
    assert c !in p1.cleared && c !in p1.store.jobs;
    var p2 := ParkBehind(p1, c, h, x);
    assert Members(p2.store.dependents, x) == {c};
    p := Examine(p2, x, c, Some(Failed));
  }

  // ---------- 6. A waiting child is canceled between the read and the EXEC ----------

  function With(s: System, i: nat, pc: Client): System {
    s.(clients := s.clients[i := pc])
  }

  /** Some interleaved run from s to s' commits exactly es. */
  ghost predicate Leads(s: System, es: seq<Event>, s': System) {
    exists evs, states :: Run(s, evs, states) && Last(s, states) == s' && Committed(evs) == es
  }

  lemma RunCons(s: System, ev: Option<Event>, t: System, evs: seq<Option<Event>>, states: seq<System>)
    requires Next(s, ev, t) && Run(t, evs, states)
    ensures Run(s, [ev] + evs, [t] + states)
    ensures Committed([ev] + evs) == (if ev.Some? then [ev.value] else []) + Committed(evs)
  {
    assert ([ev] + evs)[1..] == evs && ([t] + states)[1..] == states;
  }

  lemma {:induction false} RunSnoc(s: System, evs: seq<Option<Event>>, states: seq<System>, ev: Option<Event>, s': System)
    requires Run(s, evs, states) && Next(Last(s, states), ev, s')
    ensures Run(s, evs + [ev], states + [s'])
    ensures Committed(evs + [ev]) == Committed(evs) + (if ev.Some? then [ev.value] else [])
    decreases |evs|
  {
    if evs == [] {
      assert Run(s', [], []);
      RunCons(s, ev, s', [], []);
      assert evs + [ev] == [ev] + [] && states + [s'] == [s'] + [];
    } else {
      var e, t := evs[0], states[0];
      assert Last(s, states) == Last(t, states[1..]);
      RunSnoc(t, evs[1..], states[1..], ev, s');
      RunCons(s, e, t, evs[1..] + [ev], states[1..] + [s']);
      assert [e] + (evs[1..] + [ev]) == evs + [ev] && [t] + (states[1..] + [s']) == states + [s'];
    }
  }

  lemma LeadsOn(s: System, es: seq<Event>, s': System, ev: Option<Event>, s'': System)
    requires Leads(s, es, s') && Next(s', ev, s'')
    ensures Leads(s, es + (if ev.Some? then [ev.value] else []), s'')
  {
    var evs, states :| Run(s, evs, states) && Last(s, states) == s' && Committed(evs) == es;
    RunSnoc(s, evs, states, ev, s'');
    assert Last(s, states + [s'']) == s'';
  }

  /** A client's own command that only reads. */
  lemma ReadStep(s: System, es: seq<Event>, s': System, i: nat, pc: Client, pc': Client)
    requires Leads(s, es, s') && i in s'.clients && s'.clients[i] == pc
    requires ScanStep(s'.proto, s'.ver, pc, None, s'.proto, s'.ver, pc')
    ensures Leads(s, es, With(s', i, pc'))
  {
    assert ClientStep(s', i, None, With(s', i, pc'));
    LeadsOn(s, es, s', None, With(s', i, pc'));
    assert es + [] == es;
  }

  /** The situation: i is about to report the success of x, whose one dependent c
      waits for nothing else. */
  ghost predicate AboutToWake(s: System, i: nat, x: JobId, c: JobId) {
    var t := s.proto.store;
    && i in s.clients && s.clients[i] == Idle
    && x != c && x in t.jobs && t.jobs[x].status == JobStatus.Started
    && c in t.jobs && t.jobs[c].status == Deferred && t.jobs[c].deps == [x]
    && Members(t.dependents, x) == {c} && Members(t.dependencies, c) == {x}
  }

  /** The worker's copy of c, read while c was DEFERRED. */
  function Copy(s: System, i: nat, x: JobId, c: JobId): Scan
    requires c in s.proto.store.jobs
  {
    var w := Watch(map[], s.ver, {DependentsKey(x)});
    Scan(x, true, None, w, {c}, map[c := s.proto.store.jobs[c]], [c], [])
  }

  lemma WithTwice(s: System, i: nat, a: Client, b: Client)
    ensures With(With(s, i, a), i, b) == With(s, i, b)
  {
  }

  lemma WatchesDependents(s: System, i: nat, x: JobId, c: JobId)
    requires AboutToWake(s, i, x, c)
    ensures Leads(s, [], With(s, i, DependentsWatched(x, true, None, Watch(map[], s.ver, {DependentsKey(x)}))))
  {
    assert Run(s, [], []) && Leads(s, [], s);
    var pc := ScanCall(x, true, None);
    var s1 := With(s, i, pc);
    assert StartStep(s, i, None, s1);
    LeadsOn(s, [], s, None, s1);
    var pc' := DependentsWatched(x, true, None, Watch(map[], s.ver, {DependentsKey(x)}));
    ReadStep(s, [], s1, i, pc, pc');
    WithTwice(s, i, pc, pc');
  }

  lemma ReadsDependents(s: System, i: nat, x: JobId, c: JobId)
    requires AboutToWake(s, i, x, c)
    ensures Leads(s, [], With(s, i, DependentsRead(x, true, None, Watch(map[], s.ver, {DependentsKey(x)}), {c})))
  {
    WatchesDependents(s, i, x, c);
    var w := Watch(map[], s.ver, {DependentsKey(x)});
    var pc, pc' := DependentsWatched(x, true, None, w), DependentsRead(x, true, None, w, {c});
    ReadStep(s, [], With(s, i, pc), i, pc, pc');
    WithTwice(s, i, pc, pc');
  }

  lemma ReadsChild(s: System, i: nat, x: JobId, c: JobId)
    requires AboutToWake(s, i, x, c)
    ensures Leads(s, [], With(s, i, Scanning(Copy(s, i, x, c))))
  {
    ReadsDependents(s, i, x, c);
    var w := Watch(map[], s.ver, {DependentsKey(x)});
    var pc, pc' := DependentsRead(x, true, None, w, {c}), Scanning(Copy(s, i, x, c));
    assert Fetch(s.proto.store, {c}) == map[c := s.proto.store.jobs[c]];
    ReadStep(s, [], With(s, i, pc), i, pc, pc');
    WithTwice(s, i, pc, pc');
  }

  /** Somebody cancels c now. The worker watches no key this touches. */
  function Canceling(s: System, c: JobId): System
    requires c in s.proto.store.jobs && s.proto.store.jobs[c].status == Deferred
  {
    var t := s.proto.store;
    var h := t.jobs[c];
    s.(proto := s.proto.(store := t.(jobs := t.jobs[c := h.(status := Canceled)],
                                     deferred := t.deferred[h.origin := Members(t.deferred, h.origin) - {c}]),
                         complete := s.proto.complete - {c}),
       ver := s.ver[JobKey(c) := Ver(s.ver, JobKey(c)) + 1])
  }

  lemma CancelStep(s: System, es: seq<Event>, s': System, c: JobId)
    requires Leads(s, es, s') && c in s'.proto.store.jobs && s'.proto.store.jobs[c].status == Deferred
    ensures Leads(s, es + [SetStatus(c, Canceled)], Canceling(s', c))
  {
    assert OutsideStep(s', Some(SetStatus(c, Canceled)), Canceling(s', c));
    LeadsOn(s, es, s', Some(SetStatus(c, Canceled)), Canceling(s', c));
  }

  /** The worker's pass from here on, in a state where only c's status changed. */
  ghost predicate MidScan(t: System, i: nat, sc: Scan, x: JobId, c: JobId) {
    && i in t.clients && x in t.proto.store.jobs && t.proto.store.jobs[x].status == JobStatus.Started
    && sc.x == x && sc.finishing && sc.local == None && sc.todo == [c] && sc.chosen == [] && sc.hs.Keys == {c}
    && sc.hs[c].deps == [x] && sc.hs[c].status == Deferred
    && Members(t.proto.store.dependencies, c) == {x}
  }

  function Rewatched(t: System, sc: Scan): Scan
    requires sc.todo != [] && sc.todo[0] in sc.hs
  {
    sc.(w := Watch(sc.w, t.ver, JobKeys(sc.hs[sc.todo[0]].deps)))
  }

  lemma ReadsDependencies(s: System, es: seq<Event>, t: System, i: nat, sc: Scan, x: JobId, c: JobId)
    requires MidScan(t, i, sc, x, c) && Leads(s, es, With(t, i, Scanning(sc)))
    ensures Leads(s, es, With(t, i, ChildRead(Rewatched(t, sc), {x})))
  {
    var sc' := Rewatched(t, sc);
    ReadStep(s, es, With(t, i, Scanning(sc)), i, Scanning(sc), ChildWatched(sc'));
    WithTwice(t, i, Scanning(sc), ChildWatched(sc'));
    ReadStep(s, es, With(t, i, ChildWatched(sc')), i, ChildWatched(sc'), ChildRead(sc', {x}));
    WithTwice(t, i, ChildWatched(sc'), ChildRead(sc', {x}));
  }

  lemma ReadsParent(s: System, es: seq<Event>, t: System, i: nat, sc: Scan, x: JobId, c: JobId)
    requires MidScan(t, i, sc, x, c) && Leads(s, es, With(t, i, ChildRead(sc, {x})))
    ensures Leads(s, es, With(t, i, ParentRead(sc, {x}, JobStatus.Started)))
  {
    var pc, pc' := ChildRead(sc, {x}), ParentRead(sc, {x}, JobStatus.Started);
    ReadStep(s, es, With(t, i, pc), i, pc, pc');
    WithTwice(t, i, pc, pc');
  }

  lemma ChoosesChild(s: System, es: seq<Event>, t: System, i: nat, sc: Scan, x: JobId, c: JobId)
    requires MidScan(t, i, sc, x, c) && Leads(s, es, With(t, i, ParentRead(sc, {x}, JobStatus.Started)))
    ensures Leads(s, es, With(t, i, Scanning(sc.(todo := [], chosen := [c]))))
  {
    var pc, pc' := ParentRead(sc, {x}, JobStatus.Started), Scanning(sc.(todo := [], chosen := [c]));
    assert {x} - {x} == {};
    assert sc.todo[1..] == [] && sc.chosen + [c] == [c];
    ReadStep(s, es, With(t, i, pc), i, pc, pc');
    WithTwice(t, i, pc, pc');
  }

  /** New versions for exactly the keys a transaction writes. */
  function Bump(v: Versions, written: set<Key>): Versions {
    map k | k in v.Keys + written :: Ver(v, k) + if k in written then 1 else 0
  }

  lemma ExecGoesThrough(s1: System, i: nat, sc: Scan, s': System)
    requires i in s1.clients && s1.clients[i] == Scanning(sc) && Unchanged(sc.w, s1.ver)
    requires sc.finishing && sc.todo == [] && sc.x in s1.proto.store.jobs
    requires forall c :: c in sc.chosen ==> c in sc.hs
    requires s'.proto == WakeCommit(s1.proto, sc) && s'.ver == Bump(s1.ver, Written(WakeEvent(sc)))
    requires s'.clients == s1.clients[i := Idle] && s'.claimed == s1.claimed
    ensures Next(s1, Some(WakeEvent(sc)), s')
  {
    assert ScanStep(s1.proto, s1.ver, Scanning(sc), Some(WakeEvent(sc)), s'.proto, s'.ver, Idle);
    assert s'.clients == s1.clients[i := s'.clients[i]];
    assert ClientStep(s1, i, Some(WakeEvent(sc)), s');
  }

  lemma WakeCommitWakes(p: Protocol, sc: Scan, c: JobId)
    requires sc.finishing && sc.chosen == [c] && c in sc.hs && sc.x in p.store.jobs && sc.x != c
    ensures var p' := WakeCommit(p, sc);
      c in p'.store.jobs && p'.store.jobs[c].status == JobStatus.Queued && Pushes(p', c) == Pushes(p, c) + 1
  {
    EnqueueAllEffect(p.store, sc.hs, [c]);
  }

  lemma CommitsWake(s: System, es: seq<Event>, t: System, i: nat, sc: Scan, x: JobId, c: JobId) returns (s': System)
    requires Leads(s, es, With(t, i, Scanning(sc))) && Unchanged(sc.w, t.ver)
    requires sc.x == x && sc.finishing && sc.todo == [] && sc.chosen == [c] && c in sc.hs
    requires x in t.proto.store.jobs && x != c
    ensures Leads(s, es + [FinishJob(x, [c])], s')
    ensures c in s'.proto.store.jobs && s'.proto.store.jobs[c].status == JobStatus.Queued
    ensures Pushes(s'.proto, c) == Pushes(t.proto, c) + 1
  {
    WakeCommitWakes(t.proto, sc, c);
    var s1 := With(t, i, Scanning(sc));
    s' := System(WakeCommit(t.proto, sc), Bump(t.ver, Written(WakeEvent(sc))), s1.clients[i := Idle], t.claimed);
    ExecGoesThrough(s1, i, sc, s');
    LeadsOn(s, es, s1, Some(WakeEvent(sc)), s');
  }

  /** Whenever a worker is about to wake c there is an interleaving in which c is
      canceled first and put on its queue all the same: the CANCELED test used a
      copy of a hash nobody watches. */
  lemma CanceledChildIsWoken(s: System, i: nat, x: JobId, c: JobId) returns (s': System)
    requires AboutToWake(s, i, x, c)
    ensures Leads(s, [SetStatus(c, Canceled), FinishJob(x, [c])], s')
    ensures c in s'.proto.store.jobs && s'.proto.store.jobs[c].status == JobStatus.Queued
    ensures Pushes(s'.proto, c) == Pushes(s.proto, c) + 1
  {
    ReadsChild(s, i, x, c);
    var sc := Copy(s, i, x, c);
    var s0 := With(s, i, Scanning(sc));
    var t := Canceling(s0, c);
    CancelStep(s, [], s0, c);
    var es := [SetStatus(c, Canceled)];
    assert [] + es == es;
    assert t == With(t, i, Scanning(sc));
    s' := WakesAfterCancel(s, es, t, i, sc, x, c);
    assert es + [FinishJob(x, [c])] == [SetStatus(c, Canceled), FinishJob(x, [c])];
  }

  lemma WakesAfterCancel(s: System, es: seq<Event>, t: System, i: nat, sc: Scan, x: JobId, c: JobId) returns (s': System)
    requires MidScan(t, i, sc, x, c) && Leads(s, es, With(t, i, Scanning(sc))) && x != c
    requires Unchanged(sc.w, t.ver)
    ensures Leads(s, es + [FinishJob(x, [c])], s')
    ensures c in s'.proto.store.jobs && s'.proto.store.jobs[c].status == JobStatus.Queued
    ensures Pushes(s'.proto, c) == Pushes(t.proto, c) + 1
  {
    var sc' := Rewatched(t, sc);
    ReadsDependencies(s, es, t, i, sc, x, c);
    ReadsParent(s, es, t, i, sc', x, c);
    ChoosesChild(s, es, t, i, sc', x, c);
    s' := CommitsWake(s, es, t, i, sc'.(todo := [], chosen := [c]), x, c);
  }

  /** For a pass of any size: a dependent that is canceled by the time of the EXEC, and
      whose dependencies are met, is put on its queue if and only if the copy that was
      read before did not say so yet. */
  lemma CanceledIsWokenExactly(p: Protocol, v: Versions, sc: Scan, c: JobId)
    requires ScanKnown(p.store, v, sc) && sc.todo == [] && Unchanged(sc.w, v) && sc.x != c
    requires c in sc.ids && c in p.store.jobs && p.store.jobs[c].status == Canceled
    requires MetFor(p.store, sc.x, StatusSeen(p.store, sc.x, sc.local), c)
    ensures c in sc.hs && forall j :: j in sc.chosen ==> j in sc.hs
    ensures var p' := WakeCommit(p, sc);
      && c in p'.store.jobs
      && p'.store.jobs[c].status == (if sc.hs[c].status != Canceled then JobStatus.Queued else Canceled)
      && Pushes(p', c) == Pushes(p, c) + (if sc.hs[c].status != Canceled then 1 else 0)
  {
    PickedExactly(p.store, v, sc, c);
    assert forall j :: j in sc.chosen ==> j in sc.ids;
    EnqueueAllEffect(p.store, sc.hs, sc.chosen);
  }
}
