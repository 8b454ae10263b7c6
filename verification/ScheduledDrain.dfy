/** Moving due jobs from a scheduled registry to their queue in chunks
    (rq/scheduler.py, rq/registry.py, rq/job.py). */
module ScheduledDrain {
  import opened Common

  /** A member of the sorted set with its score, the time it is due. */
  datatype Entry = Entry(id: JobId, score: int)

  datatype Job = Job(status: JobStatus, atFront: bool, atFrontOnRetry: bool, ended: bool) {
    function ShouldEnqueueAtFront(): bool {
      (atFrontOnRetry && ended) || atFront
    }
  }

  /** The sorted set is listed as Redis orders it: by score, each member once. */
  datatype Store = Store(registry: seq<Entry>, jobs: map<JobId, Job>, queue: seq<JobId>)

  ghost predicate SortedSet(r: seq<Entry>) {
    forall i, k :: 0 <= i < k < |r| ==> r[i].score <= r[k].score && r[i].id != r[k].id
  }

  predicate IsDue(e: Entry, timestamp: int) {
    0 <= e.score <= timestamp
  }

  /** ZRANGEBYSCORE key 0 timestamp. */
  function Due(r: seq<Entry>, timestamp: int): seq<Entry> {
    if r == [] then []
    else (if IsDue(r[0], timestamp) then [r[0]] else []) + Due(r[1..], timestamp)
  }

  function Take(r: seq<Entry>, n: nat): seq<Entry> {
    if |r| <= n then r else r[..n]
  }

  /** ZREM of the entry's id. */
  function Without(r: seq<Entry>, id: JobId): seq<Entry> {
    if r == [] then []
    else (if r[0].id == id then [] else [r[0]]) + Without(r[1..], id)
  }

  /** One job that was fetched is pushed; an id without a job is passed over. */
  function PushOne(s: Store, id: JobId): Store {
    if id !in s.jobs then s
    else s.(jobs := s.jobs[id := s.jobs[id].(status := Queued)],
            queue := if s.jobs[id].ShouldEnqueueAtFront() then [id] + s.queue else s.queue + [id])
  }

  /** What moving one entry after another leaves. */
  function Moved(s: Store, es: seq<Entry>): Store
    decreases |es|
  {
    if es == [] then s
    else
      var t := PushOne(s, es[0].id);
      Moved(t.(registry := Without(s.registry, es[0].id)), es[1..])
  }

  // ---------- Draining in chunks is draining at once ----------

  lemma {:induction false} MovedInTwo(s: Store, a: seq<Entry>, b: seq<Entry>)
    ensures Moved(s, a + b) == Moved(Moved(s, a), b)
    decreases |a|
  {
    if a == [] {
      assert a + b == b;
    } else {
      assert (a + b)[1..] == a[1..] + b;
      MovedInTwo(PushOne(s, a[0].id).(registry := Without(s.registry, a[0].id)), a[1..], b);
    }
  }

  lemma {:induction false} WithoutMember(r: seq<Entry>, id: JobId, e: Entry)
    ensures e in Without(r, id) <==> e in r && e.id != id
  {
    if r != [] { WithoutMember(r[1..], id, e); }
  }

  lemma {:induction false} WithoutAbsent(r: seq<Entry>, id: JobId)
    requires forall e :: e in r ==> e.id != id
    ensures Without(r, id) == r
  {
    if r != [] { WithoutAbsent(r[1..], id); }
  }

  lemma {:induction false} WithoutSorted(r: seq<Entry>, id: JobId)
    requires SortedSet(r)
    ensures SortedSet(Without(r, id))
  {
    if r != [] {
      WithoutSorted(r[1..], id);
      var rest := Without(r[1..], id);
      forall e | e in rest ensures e in r[1..] {
        WithoutMember(r[1..], id, e);
      }
      forall k | 0 <= k < |rest| ensures r[0].score <= rest[k].score && r[0].id != rest[k].id {
        assert rest[k] in r[1..];
      }
    }
  }

  lemma {:induction false} DueMember(r: seq<Entry>, ts: int, e: Entry)
    ensures e in Due(r, ts) <==> e in r && IsDue(e, ts)
  {
    if r != [] { DueMember(r[1..], ts, e); }
  }

  /** Taking the first due entry out leaves the other due entries, in order. */
  lemma {:induction false} DueWithoutFirst(r: seq<Entry>, ts: int)
    requires SortedSet(r) && Due(r, ts) != []
    ensures Due(Without(r, Due(r, ts)[0].id), ts) == Due(r, ts)[1..]
  {
    var id := Due(r, ts)[0].id;
    if IsDue(r[0], ts) {
      forall e | e in r[1..] ensures e.id != id {
        var k :| 0 <= k < |r[1..]| && r[1..][k] == e;
        assert r[k + 1] == e;
      }
      WithoutAbsent(r[1..], id);
      assert Without(r, id) == r[1..];
    } else {
      assert Due(r, ts) == Due(r[1..], ts);
      DueWithoutFirst(r[1..], ts);
      DueMember(r[1..], ts, Due(r, ts)[0]);
      var e := Due(r, ts)[0];
      var k :| 0 <= k < |r[1..]| && r[1..][k] == e;
      assert r[k + 1] == e && r[0].id != id;
      assert Without(r, id) == [r[0]] + Without(r[1..], id);
      assert Without(r, id)[1..] == Without(r[1..], id);
    }
  }

  /** After the first `n` due entries have been moved the rest are due, still in order. */
  lemma {:induction false} DueAfterMoved(s: Store, ts: int, n: nat)
    requires SortedSet(s.registry) && n <= |Due(s.registry, ts)|
    ensures var t := Moved(s, Due(s.registry, ts)[..n]);
      SortedSet(t.registry) && Due(t.registry, ts) == Due(s.registry, ts)[n..]
    decreases n
  {
    var due := Due(s.registry, ts);
    if n > 0 {
      var t := PushOne(s, due[0].id).(registry := Without(s.registry, due[0].id));
      DueWithoutFirst(s.registry, ts);
      WithoutSorted(s.registry, due[0].id);
      assert due[..n][1..] == due[1..][..n - 1];
      DueAfterMoved(t, ts, n - 1);
    } else {
      assert due[..n] == [] && due[n..] == due;
    }
  }

  // ---------- What the queue becomes ----------

  /** The existing jobs of `es`, in order, whose front flag is `front`. */
  function Sent(jobs: map<JobId, Job>, es: seq<Entry>, front: bool): seq<JobId> {
    if es == [] then []
    else
      (if es[0].id in jobs && jobs[es[0].id].ShouldEnqueueAtFront() == front then [es[0].id] else [])
      + Sent(jobs, es[1..], front)
  }

  /** Which jobs go to the front: those with the flag, and those with the flag for retries
      that have been executed before. */
  lemma {:induction false} SentExactly(jobs: map<JobId, Job>, es: seq<Entry>, front: bool, id: JobId)
    ensures id in Sent(jobs, es, front) <==>
      && (exists k :: 0 <= k < |es| && es[k].id == id) && id in jobs
      && ((jobs[id].atFront || (jobs[id].atFrontOnRetry && jobs[id].ended)) == front)
  {
    if es != [] {
      SentExactly(jobs, es[1..], front, id);
      if k :| 1 <= k < |es| && es[k].id == id { assert es[1..][k - 1].id == id; }
      if k :| 0 <= k < |es| - 1 && es[1..][k].id == id { assert es[k + 1].id == id; }
    }
  }

  ghost predicate SameFlags(a: map<JobId, Job>, b: map<JobId, Job>) {
    && a.Keys == b.Keys
    && forall j :: j in a ==> a[j].ShouldEnqueueAtFront() == b[j].ShouldEnqueueAtFront()
  }

  lemma {:induction false} SentSame(a: map<JobId, Job>, b: map<JobId, Job>, es: seq<Entry>, front: bool)
    requires SameFlags(a, b)
    ensures Sent(a, es, front) == Sent(b, es, front)
  {
    if es != [] { SentSame(a, b, es[1..], front); }
  }

  /** Jobs sent to the back follow the old queue in score order; jobs sent to the front
      precede it, the latest one first. */
  lemma {:induction false} QueueAfterMoved(s: Store, es: seq<Entry>)
    ensures Moved(s, es).queue == Reverse(Sent(s.jobs, es, true)) + s.queue + Sent(s.jobs, es, false)
    decreases |es|
  {
    if es == [] {
      assert Moved(s, es) == s && Reverse(Sent(s.jobs, es, true)) == [];
    } else {
      var id := es[0].id;
      var t := PushOne(s, id).(registry := Without(s.registry, id));
      QueueAfterMoved(t, es[1..]);
      SentSame(s.jobs, t.jobs, es[1..], true);
      SentSame(s.jobs, t.jobs, es[1..], false);
      PushFits(s, es, Sent(s.jobs, es[1..], true), Sent(s.jobs, es[1..], false));
    }
  }

  lemma PushFits(s: Store, es: seq<Entry>, fronts: seq<JobId>, backs: seq<JobId>)
    requires es != [] && fronts == Sent(s.jobs, es[1..], true) && backs == Sent(s.jobs, es[1..], false)
    ensures Reverse(fronts) + PushOne(s, es[0].id).queue + backs
         == Reverse(Sent(s.jobs, es, true)) + s.queue + Sent(s.jobs, es, false)
  {
    var id := es[0].id;
    if id in s.jobs {
      OnePush(fronts, backs, s.queue, id, s.jobs[id].ShouldEnqueueAtFront());
    } else {
      assert [] + fronts == fronts && [] + backs == backs;
    }
  }

  /** Statuses: exactly the existing moved jobs become QUEUED, the others keep theirs. */
  lemma {:induction false} JobsAfterMoved(s: Store, es: seq<Entry>, j: JobId)
    ensures Moved(s, es).jobs.Keys == s.jobs.Keys
    ensures j in s.jobs ==>
      Moved(s, es).jobs[j] == if exists e :: e in es && e.id == j then s.jobs[j].(status := Queued) else s.jobs[j]
    decreases |es|
  {
    if es != [] {
      var t := PushOne(s, es[0].id).(registry := Without(s.registry, es[0].id));
      JobsAfterMoved(t, es[1..], j);
      assert forall e :: e in es <==> e == es[0] || e in es[1..];
    }
  }

  /** The registry loses exactly the moved ids, with or without a job behind them. */
  lemma {:induction false} RegistryAfterMoved(s: Store, es: seq<Entry>, x: Entry)
    ensures x in Moved(s, es).registry <==> x in s.registry && forall e :: e in es ==> e.id != x.id
    decreases |es|
  {
    if es != [] {
      var t := PushOne(s, es[0].id).(registry := Without(s.registry, es[0].id));
      RegistryAfterMoved(t, es[1..], x);
      WithoutMember(s.registry, es[0].id, x);
      assert forall e :: e in es <==> e == es[0] || e in es[1..];
    }
  }

  /** Nothing that is not due is touched: later entries, and those scored before the
      epoch, which no pass ever finds. */
  lemma OthersStay(s: Store, ts: int, x: Entry)
    requires SortedSet(s.registry) && x in s.registry
    ensures x in Moved(s, Due(s.registry, ts)).registry <==> x.score < 0 || x.score > ts
  {
    var due := Due(s.registry, ts);
    RegistryAfterMoved(s, due, x);
    DueMember(s.registry, ts, x);
    forall e | e in due && e.id == x.id ensures e == x {
      DueMember(s.registry, ts, e);
      UniqueIds(s.registry, e, x);
    }
  }

  lemma UniqueIds(r: seq<Entry>, a: Entry, b: Entry)
    requires SortedSet(r) && a in r && b in r && a.id == b.id
    ensures a == b
  {
  }

  // ---------- Draining twice is draining late ----------

  lemma {:induction false} DuePrefix(r: seq<Entry>, early: int, late: int)
    requires SortedSet(r) && early <= late
    ensures Due(r, early) <= Due(r, late)
  {
    if r != [] {
      DuePrefix(r[1..], early, late);
      if !IsDue(r[0], early) && IsDue(r[0], late) {
        assert r[0].score > early;
        forall e | e in r[1..] ensures !IsDue(e, early) {
          var k :| 0 <= k < |r[1..]| && r[1..][k] == e;
          assert r[k + 1] == e;
        }
        NoneDue(r[1..], early);
      }
    }
  }

  lemma {:induction false} NoneDue(r: seq<Entry>, ts: int)
    requires forall e :: e in r ==> !IsDue(e, ts)
    ensures Due(r, ts) == []
  {
    if r != [] { NoneDue(r[1..], ts); }
  }

  /** Looking at an earlier time first changes nothing: the queue ends up the same. */
  lemma DrainInStages(s: Store, early: int, late: int)
    requires SortedSet(s.registry) && early <= late
    ensures var t := Moved(s, Due(s.registry, early));
      Moved(t, Due(t.registry, late)) == Moved(s, Due(s.registry, late))
  {
    var a, b := Due(s.registry, early), Due(s.registry, late);
    DuePrefix(s.registry, early, late);
    assert b[..|a|] == a && b == a + b[|a|..];
    DueAfterMoved(s, late, |a|);
    MovedInTwo(s, a, b[|a|..]);
  }

  // ---------- The chunk size does not matter ----------

  /** One call: at most `chunk` due entries are moved. */
  function Pass(s: Store, ts: int, chunk: nat): Store {
    Moved(s, Take(Due(s.registry, ts), chunk))
  }

  function Passes(s: Store, ts: int, chunk: nat, k: nat): Store
    decreases k
  {
    if k == 0 then s else Passes(Pass(s, ts, chunk), ts, chunk, k - 1)
  }

  lemma TakeMore(es: seq<Entry>, n: nat, m: nat)
    ensures var a := Take(es, n);
      a + Take(es[|a|..], m) == Take(es, n + m)
  {
  }

  /** `k` passes move the first k * chunk due entries, in order. */
  lemma {:induction false} PassesMove(s: Store, ts: int, chunk: nat, k: nat)
    requires SortedSet(s.registry)
    ensures Passes(s, ts, chunk, k) == Moved(s, Take(Due(s.registry, ts), k * chunk))
    decreases k
  {
    var due := Due(s.registry, ts);
    if k == 0 {
      assert Take(due, 0) == [] && k * chunk == 0;
    } else {
      var a := Take(due, chunk);
      assert a == due[..|a|];
      DueAfterMoved(s, ts, |a|);
      PassesMove(Pass(s, ts, chunk), ts, chunk, k - 1);
      assert chunk + (k - 1) * chunk == k * chunk;
      TakeMore(due, chunk, (k - 1) * chunk);
      MovedInTwo(s, a, Take(due[|a|..], (k - 1) * chunk));
    }
  }

  /** Enough passes of any positive chunk size leave the due set empty, and always the
      same result as one unlimited pass. */
  lemma EnoughPassesDrain(s: Store, ts: int, chunk: nat, k: nat)
    requires SortedSet(s.registry) && k * chunk >= |Due(s.registry, ts)|
    ensures Passes(s, ts, chunk, k) == Moved(s, Due(s.registry, ts))
    ensures Due(Passes(s, ts, chunk, k).registry, ts) == []
  {
    var due := Due(s.registry, ts);
    PassesMove(s, ts, chunk, k);
    DueAfterMoved(s, ts, |due|);
    assert due[..|due|] == due && due[|due|..] == [];
  }

  // ---------- Why one scheduler at a time ----------

  lemma MovedKeepsFlags(s: Store, es: seq<Entry>)
    ensures SameFlags(Moved(s, es).jobs, s.jobs)
  {
    JobsAfterMoved(s, es, 0);
    forall j | j in s.jobs
      ensures Moved(s, es).jobs[j].ShouldEnqueueAtFront() == s.jobs[j].ShouldEnqueueAtFront()
    {
      JobsAfterMoved(s, es, j);
    }
  }

  lemma Regroup(fronts: seq<JobId>, ids: seq<JobId>, backs: seq<JobId>)
    ensures fronts + (fronts + ids + backs) + backs == fronts + fronts + ids + backs + backs
  {
  }

  /** Two schedulers that both read the due set before either moves it push every job
      in it twice. */
  lemma DrainedByTwo(s: Store, ts: int)
    ensures var due := Due(s.registry, ts);
      var fronts, backs := Reverse(Sent(s.jobs, due, true)), Sent(s.jobs, due, false);
      Moved(Moved(s, due), due).queue == fronts + fronts + s.queue + backs + backs
  {
    MovedTwice(s, Due(s.registry, ts));
  }

  lemma MovedTwice(s: Store, es: seq<Entry>)
    ensures var fronts, backs := Reverse(Sent(s.jobs, es, true)), Sent(s.jobs, es, false);
      Moved(Moved(s, es), es).queue == fronts + fronts + s.queue + backs + backs
  {
    var t := Moved(s, es);
    MovedKeepsFlags(s, es);
    SentSame(t.jobs, s.jobs, es, true);
    SentSame(t.jobs, s.jobs, es, false);
    QueueAfterMoved(s, es);
    QueueAfterMoved(t, es);
    Regroup(Reverse(Sent(s.jobs, es, true)), s.queue, Sent(s.jobs, es, false));
  }
}
