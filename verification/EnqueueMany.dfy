/** `Queue.enqueue_many` (rq/queue.py) with `save_unique_job` (rq/scripts.py) and
    `Dependency.get_jobs_with_met_dependencies` (rq/dependency.py), undisturbed. */
module EnqueueMany {
  import opened Common
  import opened DependencyStore

  /** One entry. `id` is the given job id, or the one generated for it. `atFront` is the
      entry's own flag, `depFront` the one taken from its dependencies. */
  datatype EnqueueData = EnqueueData(
    id: JobId,
    explicitId: bool,
    unique: bool,
    deps: seq<JobId>,
    atFront: bool,
    depFront: bool,
    allowFailures: bool)
  {
    /** Which flag decides: entries with dependencies ignore their own. */
    function Front(): bool {
      if deps == [] then atFront else depFront
    }
  }

  datatype Kind = UniqueEntry | NormalEntry | DependentEntry

  /** An entry with its position in the batch. */
  datatype Item = Item(index: nat, data: EnqueueData)

  datatype Outcome =
    | Jobs(ids: seq<JobId>)
    | ValueError
    | DuplicateJobError(id: JobId)
    | KeyError

  function KindOf(jd: EnqueueData): Kind {
    if jd.deps != [] then DependentEntry else if jd.unique then UniqueEntry else NormalEntry
  }

  // ---------- The partition ----------

  /** The items of one kind, as the list comprehensions collect them. */
  function Items(jds: seq<EnqueueData>, k: Kind, start: nat): seq<Item>
    requires start <= |jds|
    decreases |jds| - start
  {
    if start == |jds| then []
    else (if KindOf(jds[start]) == k then [Item(start, jds[start])] else []) + Items(jds, k, start + 1)
  }

  function UniqueOf(jds: seq<EnqueueData>): seq<Item> { Items(jds, UniqueEntry, 0) }
  function NormalOf(jds: seq<EnqueueData>): seq<Item> { Items(jds, NormalEntry, 0) }
  function DependentOf(jds: seq<EnqueueData>): seq<Item> { Items(jds, DependentEntry, 0) }

  lemma {:induction false} ItemsAre(jds: seq<EnqueueData>, k: Kind, start: nat)
    requires start <= |jds|
    ensures forall x :: x in Items(jds, k, start) <==>
      start <= x.index < |jds| && x.data == jds[x.index] && KindOf(x.data) == k
    ensures forall a, b :: 0 <= a < b < |Items(jds, k, start)| ==>
      Items(jds, k, start)[a].index < Items(jds, k, start)[b].index
    decreases |jds| - start
  {
    if start < |jds| {
      ItemsAre(jds, k, start + 1);
      var rest := Items(jds, k, start + 1);
      forall b | 0 <= b < |rest| ensures start < rest[b].index {
        assert rest[b] in rest;
      }
    }
  }

  /** The classes by the entries' own flags. */
  lemma ClassesAre(jds: seq<EnqueueData>, x: Item)
    ensures x in UniqueOf(jds) <==> x.index < |jds| && x.data == jds[x.index] && x.data.unique && x.data.deps == []
    ensures x in NormalOf(jds) <==> x.index < |jds| && x.data == jds[x.index] && !x.data.unique && x.data.deps == []
    ensures x in DependentOf(jds) <==> x.index < |jds| && x.data == jds[x.index] && x.data.deps != []
  {
    ItemsAre(jds, UniqueEntry, 0);
    ItemsAre(jds, NormalEntry, 0);
    ItemsAre(jds, DependentEntry, 0);
  }

  /** Every entry of the batch is in one of the three classes, and nothing else is. */
  lemma PartitionCovers(jds: seq<EnqueueData>, x: Item)
    ensures x in UniqueOf(jds) + NormalOf(jds) + DependentOf(jds) <==> x.index < |jds| && x.data == jds[x.index]
  {
    ItemsAre(jds, UniqueEntry, 0);
    ItemsAre(jds, NormalEntry, 0);
    ItemsAre(jds, DependentEntry, 0);
  }

  /** No entry is in two classes, or twice in one. */
  lemma PartitionOnce(jds: seq<EnqueueData>, a: nat, b: nat)
    requires var all := UniqueOf(jds) + NormalOf(jds) + DependentOf(jds);
      a < |all| && b < |all| && all[a].index == all[b].index
    ensures a == b
  {
    var all := UniqueOf(jds) + NormalOf(jds) + DependentOf(jds);
    assert all[a] in all && all[b] in all;
    PartitionCovers(jds, all[a]);
    PartitionCovers(jds, all[b]);
    ItemsAre(jds, UniqueEntry, 0);
    ItemsAre(jds, NormalEntry, 0);
    ItemsAre(jds, DependentEntry, 0);
    SameClass(UniqueOf(jds), NormalOf(jds), DependentOf(jds), a, b);
  }

  lemma SameClass(u: seq<Item>, n: seq<Item>, d: seq<Item>, a: nat, b: nat)
    requires a < |u + n + d| && b < |u + n + d| && (u + n + d)[a] == (u + n + d)[b]
    requires forall x :: x in u ==> KindOf(x.data) == UniqueEntry
    requires forall x :: x in n ==> KindOf(x.data) == NormalEntry
    requires forall x :: x in d ==> KindOf(x.data) == DependentEntry
    requires Ascending(u) && Ascending(n) && Ascending(d)
    ensures a == b
  {
    Located(u, n, d, a);
    Located(u, n, d, b);
  }

  predicate Ascending(xs: seq<Item>) {
    forall a, b :: 0 <= a < b < |xs| ==> xs[a].index < xs[b].index
  }

  lemma Located(u: seq<Item>, n: seq<Item>, d: seq<Item>, a: nat)
    requires a < |u + n + d|
    ensures a < |u| ==> (u + n + d)[a] in u && (u + n + d)[a] == u[a]
    ensures |u| <= a < |u + n| ==> (u + n + d)[a] in n && (u + n + d)[a] == n[a - |u|]
    ensures |u + n| <= a ==> (u + n + d)[a] in d && (u + n + d)[a] == d[a - |u + n|]
  {
  }

  // ---------- The effect on Redis ----------

  function HashOf(q: QueueName, jd: EnqueueData, st: JobStatus): JobHash {
    JobHash(st, q, jd.deps, jd.depFront, jd.allowFailures)
  }

  function Save(s: Store, q: QueueName, jd: EnqueueData, st: JobStatus): Store {
    s.(jobs := s.jobs[jd.id := HashOf(q, jd, st)])
  }

  /** Saved as QUEUED and pushed; only a deferred job leaves the deferred registry. */
  function PushEntry(s: Store, q: QueueName, jd: EnqueueData): Store {
    var s1 := Save(s, q, jd, Queued);
    s1.(queues := s.queues[q := Push(ListAt(s.queues, q), jd.id, jd.Front())],
        deferred := if jd.deps == [] then s.deferred else s.deferred[q := Members(s.deferred, q) - {jd.id}])
  }

  function PushAll(s: Store, q: QueueName, xs: seq<Item>): Store
    decreases |xs|
  {
    if xs == [] then s else PushAll(PushEntry(s, q, xs[0].data), q, xs[1..])
  }

  function SaveAll(s: Store, q: QueueName, xs: seq<Item>): Store
    decreases |xs|
  {
    if xs == [] then s else SaveAll(Save(s, q, xs[0].data, Deferred), q, xs[1..])
  }

  /** `register_dependency`. */
  function Register(s: Store, q: QueueName, jd: EnqueueData): Store {
    s.(deferred := s.deferred[q := Members(s.deferred, q) + {jd.id}],
       dependents := AddDependents(s.dependents, jd.id, jd.deps),
       dependencies := s.dependencies[jd.id := Members(s.dependencies, jd.id) + ToSet(jd.deps)])
  }

  function RegisterAll(s: Store, q: QueueName, xs: seq<Item>): Store
    decreases |xs|
  {
    if xs == [] then s else RegisterAll(Register(s, q, xs[0].data), q, xs[1..])
  }

  /** `dependencies_are_met()` without a parent. */
  predicate AllMet(s: Store, jd: EnqueueData) {
    forall d :: d in Members(s.dependencies, jd.id) ==> Satisfied(s, d, jd.allowFailures)
  }

  /** The items found met while they are registered one after another. */
  function MetOf(s: Store, q: QueueName, xs: seq<Item>): seq<Item>
    decreases |xs|
  {
    if xs == [] then []
    else
      var s1 := Register(s, q, xs[0].data);
      (if AllMet(s1, xs[0].data) then [xs[0]] else []) + MetOf(s1, q, xs[1..])
  }

  /** After the unique and normal entries. */
  function Pushed(s: Store, q: QueueName, jds: seq<EnqueueData>): Store {
    PushAll(PushAll(s, q, UniqueOf(jds)), q, NormalOf(jds))
  }

  /** With the dependent ones saved as DEFERRED. */
  function Saved(s: Store, q: QueueName, jds: seq<EnqueueData>): Store {
    SaveAll(Pushed(s, q, jds), q, DependentOf(jds))
  }

  function MetItems(s: Store, q: QueueName, jds: seq<EnqueueData>): seq<Item> {
    MetOf(Saved(s, q, jds), q, DependentOf(jds))
  }

  /** The whole batch. */
  function Batch(s: Store, q: QueueName, jds: seq<EnqueueData>): Store {
    PushAll(RegisterAll(Saved(s, q, jds), q, DependentOf(jds)), q, MetItems(s, q, jds))
  }

  /** The n-th unique entry's id already has a hash when its turn comes. */
  predicate Duplicate(s: Store, q: QueueName, jds: seq<EnqueueData>, n: nat)
    requires n < |UniqueOf(jds)|
  {
    UniqueOf(jds)[n].data.id in PushAll(s, q, UniqueOf(jds)[..n]).jobs
  }

  /** The entry asks for a unique id that has a hash already, or that an earlier entry asks
      for as well. */
  ghost predicate AsksForTakenId(s: Store, jds: seq<EnqueueData>, j: nat) {
    && j < |jds| && jds[j].unique
    && (jds[j].id in s.jobs || exists i :: 0 <= i < j && jds[i].unique && jds[i].id == jds[j].id)
  }

  lemma {:induction false} PushAllSaves(s: Store, q: QueueName, xs: seq<Item>, id: JobId)
    ensures id in PushAll(s, q, xs).jobs <==> id in s.jobs || exists l :: 0 <= l < |xs| && xs[l].data.id == id
    decreases |xs|
  {
    if xs != [] {
      PushAllSaves(PushEntry(s, q, xs[0].data), q, xs[1..], id);
      if l :| 1 <= l < |xs| && xs[l].data.id == id { assert xs[1..][l - 1].data.id == id; }
      if l :| 0 <= l < |xs| - 1 && xs[1..][l].data.id == id { assert xs[l + 1].data.id == id; }
    }
  }

  lemma DuplicateAsks(s: Store, q: QueueName, jds: seq<EnqueueData>, n: nat)
    requires n < |UniqueOf(jds)| && Duplicate(s, q, jds, n)
    ensures AsksForTakenId(s, jds, UniqueOf(jds)[n].index)
    ensures UniqueOf(jds)[n].data == jds[UniqueOf(jds)[n].index]
  {
    var xs := UniqueOf(jds);
    ItemsAre(jds, UniqueEntry, 0);
    assert xs[n] in xs;
    ClassesAre(jds, xs[n]);
    PushAllSaves(s, q, xs[..n], xs[n].data.id);
    if xs[n].data.id !in s.jobs {
      var l :| 0 <= l < n && xs[..n][l].data.id == xs[n].data.id;
      assert xs[l] in xs;
      ClassesAre(jds, xs[l]);
      assert jds[xs[l].index].id == xs[n].data.id && xs[l].index < xs[n].index;
    }
  }

  lemma AskingIsDuplicate(s: Store, q: QueueName, jds: seq<EnqueueData>, j: nat) returns (n: nat)
    requires AsksForTakenId(s, jds, j) && forall i :: 0 <= i < |jds| && jds[i].unique ==> jds[i].deps == []
    ensures n < |UniqueOf(jds)| && Duplicate(s, q, jds, n)
  {
    var xs := UniqueOf(jds);
    ItemsAre(jds, UniqueEntry, 0);
    ClassesAre(jds, Item(j, jds[j]));
    n :| 0 <= n < |xs| && xs[n] == Item(j, jds[j]);
    PushAllSaves(s, q, xs[..n], jds[j].id);
    if jds[j].id !in s.jobs {
      var i :| 0 <= i < j && jds[i].unique && jds[i].id == jds[j].id;
      ClassesAre(jds, Item(i, jds[i]));
      var l :| 0 <= l < |xs| && xs[l] == Item(i, jds[i]);
      assert l < n;
      assert xs[..n][l].data.id == jds[j].id;
    }
  }

  lemma NobodyAsks(s: Store, q: QueueName, jds: seq<EnqueueData>)
    requires NoneDuplicate(s, q, jds, |UniqueOf(jds)|)
    requires forall i :: 0 <= i < |jds| && jds[i].unique ==> jds[i].deps == []
    ensures forall j :: !AsksForTakenId(s, jds, j)
  {
    if j :| AsksForTakenId(s, jds, j) { var _ := AskingIsDuplicate(s, q, jds, j); }
  }

  // ---------- What is saved ----------

  lemma {:induction false} PushedJobs(s: Store, q: QueueName, xs: seq<Item>, id: JobId)
    ensures id in s.jobs && (forall k :: 0 <= k < |xs| ==> xs[k].data.id != id) ==>
      id in PushAll(s, q, xs).jobs && PushAll(s, q, xs).jobs[id] == s.jobs[id]
    ensures forall k :: 0 <= k < |xs| && xs[k].data.id == id && DistinctIds(xs) ==>
      && id in PushAll(s, q, xs).jobs
      && PushAll(s, q, xs).jobs[id] == JobHash(Queued, q, xs[k].data.deps, xs[k].data.depFront, xs[k].data.allowFailures)
    decreases |xs|
  {
    if xs != [] {
      PushedJobs(PushEntry(s, q, xs[0].data), q, xs[1..], id);
      assert DistinctIds(xs) ==> DistinctIds(xs[1..]);
      forall k | 1 <= k < |xs| ensures xs[k] == xs[1..][k - 1] {}
    }
  }

  lemma {:induction false} DeferredJobs(s: Store, q: QueueName, xs: seq<Item>, k: nat)
    requires k < |xs| && DistinctIds(xs)
    ensures var t, jd := SaveAll(s, q, xs), xs[k].data;
      jd.id in t.jobs && t.jobs[jd.id] == JobHash(Deferred, q, jd.deps, jd.depFront, jd.allowFailures)
    decreases |xs|
  {
    if k > 0 {
      assert xs[1..][k - 1] == xs[k];
      DeferredJobs(Save(s, q, xs[0].data, Deferred), q, xs[1..], k - 1);
    } else {
      StaysSaved(Save(s, q, xs[0].data, Deferred), q, xs[1..], xs[0].data.id);
    }
  }

  // ---------- The order of the queue ----------

  function Sent(xs: seq<Item>, front: bool): seq<JobId> {
    if xs == [] then []
    else (if xs[0].data.Front() == front then [xs[0].data.id] else []) + Sent(xs[1..], front)
  }

  lemma {:induction false} PushAllQueue(s: Store, q: QueueName, xs: seq<Item>)
    ensures ListAt(PushAll(s, q, xs).queues, q) == Reverse(Sent(xs, true)) + ListAt(s.queues, q) + Sent(xs, false)
    decreases |xs|
  {
    if xs == [] {
      assert Reverse(Sent(xs, true)) == [];
    } else {
      PushAllQueue(PushEntry(s, q, xs[0].data), q, xs[1..]);
      OnePush(Sent(xs[1..], true), Sent(xs[1..], false), ListAt(s.queues, q), xs[0].data.id, xs[0].data.Front());
    }
  }

  lemma {:induction false} PushAllInTwo(s: Store, q: QueueName, a: seq<Item>, b: seq<Item>)
    ensures PushAll(s, q, a + b) == PushAll(PushAll(s, q, a), q, b)
    decreases |a|
  {
    if a == [] {
      assert a + b == b;
    } else {
      assert (a + b)[1..] == a[1..] + b;
      PushAllInTwo(PushEntry(s, q, a[0].data), q, a[1..], b);
    }
  }

  lemma {:induction false} SavedKeepsQueues(s: Store, q: QueueName, xs: seq<Item>)
    ensures SaveAll(s, q, xs).queues == s.queues
    decreases |xs|
  {
    if xs != [] { SavedKeepsQueues(Save(s, q, xs[0].data, Deferred), q, xs[1..]); }
  }

  lemma {:induction false} RegisteredKeeps(s: Store, q: QueueName, xs: seq<Item>)
    ensures RegisterAll(s, q, xs).queues == s.queues && RegisterAll(s, q, xs).jobs == s.jobs
    decreases |xs|
  {
    if xs != [] { RegisteredKeeps(Register(s, q, xs[0].data), q, xs[1..]); }
  }

  lemma {:induction false} SentConcat(a: seq<Item>, b: seq<Item>, front: bool)
    ensures Sent(a + b, front) == Sent(a, front) + Sent(b, front)
  {
    if a == [] {
      assert a + b == b;
    } else {
      var head := if a[0].data.Front() == front then [a[0].data.id] else [];
      assert (a + b)[0] == a[0] && (a + b)[1..] == a[1..] + b;
      SentConcat(a[1..], b, front);
      assert head + (Sent(a[1..], front) + Sent(b, front)) == (head + Sent(a[1..], front)) + Sent(b, front);
    }
  }

  /** Entries without dependencies go by their own flag, the others by that of their
      dependencies. */
  lemma {:induction false} SentExactly(xs: seq<Item>, front: bool, id: JobId)
    ensures id in Sent(xs, front) <==> exists k ::
      (0 <= k < |xs| && xs[k].data.id == id
       && (if xs[k].data.deps == [] then xs[k].data.atFront else xs[k].data.depFront) == front)
  {
    if xs != [] {
      SentExactly(xs[1..], front, id);
      if k :| 1 <= k < |xs| && xs[k].data.id == id && xs[k].data.Front() == front { assert xs[1..][k - 1] == xs[k]; }
      if k :| 0 <= k < |xs| - 1 && xs[1..][k].data.id == id && xs[1..][k].data.Front() == front { assert xs[k + 1] == xs[1..][k]; }
    }
  }

  /** The order entries are pushed in. */
  function Processed(s: Store, q: QueueName, jds: seq<EnqueueData>): seq<Item> {
    UniqueOf(jds) + NormalOf(jds) + MetItems(s, q, jds)
  }

  /** The old queue stays together. Behind it come the entries sent to the back, unique
      ones first, then normal ones, then those with met dependencies; before it come
      the ones sent to the front, in the opposite order. */
  lemma QueueAfterBatch(s: Store, q: QueueName, jds: seq<EnqueueData>)
    ensures var order := Processed(s, q, jds);
      ListAt(Batch(s, q, jds).queues, q) == Reverse(Sent(order, true)) + ListAt(s.queues, q) + Sent(order, false)
  {
    var u, n, d, m := UniqueOf(jds), NormalOf(jds), DependentOf(jds), MetItems(s, q, jds);
    PushAllInTwo(s, q, u, n);
    PushAllQueue(s, q, u + n);
    SavedKeepsQueues(Pushed(s, q, jds), q, d);
    RegisteredKeeps(Saved(s, q, jds), q, d);
    PushAllQueue(RegisterAll(Saved(s, q, jds), q, d), q, m);
    SentConcat(u + n, m, true);
    SentConcat(u + n, m, false);
    ReverseConcat(Sent(u + n, true), Sent(m, true));
    Regroup(Reverse(Sent(m, true)), Reverse(Sent(u + n, true)), ListAt(s.queues, q), Sent(u + n, false), Sent(m, false));
  }

  lemma ReverseConcat(a: seq<JobId>, b: seq<JobId>)
    ensures Reverse(a + b) == Reverse(b) + Reverse(a)
  {
  }

  lemma Regroup(a: seq<JobId>, b: seq<JobId>, c: seq<JobId>, d: seq<JobId>, e: seq<JobId>)
    ensures a + (b + c + d) + e == (a + b) + c + (d + e)
  {
  }

  // ---------- Which dependent entries are pushed ----------

  predicate DistinctIds(xs: seq<Item>) {
    forall a, b :: 0 <= a < b < |xs| ==> xs[a].data.id != xs[b].data.id
  }

  lemma {:induction false} MetAreMembers(s: Store, q: QueueName, xs: seq<Item>)
    ensures forall x :: x in MetOf(s, q, xs) ==> x in xs
    decreases |xs|
  {
    if xs != [] { MetAreMembers(Register(s, q, xs[0].data), q, xs[1..]); }
  }

  /** An entry is pushed at once exactly when each of its dependencies (and any recorded
      for its id before) is finished, gone, or failed where that is allowed. */
  lemma {:induction false} MetExactly(s: Store, q: QueueName, xs: seq<Item>, k: nat)
    requires DistinctIds(xs) && k < |xs|
    ensures xs[k] in MetOf(s, q, xs) <==>
      forall d :: d in Members(s.dependencies, xs[k].data.id) + ToSet(xs[k].data.deps) && d in s.jobs
        ==> s.jobs[d].status == Finished || (s.jobs[d].status == Failed && xs[k].data.allowFailures)
    decreases |xs|
  {
    var s1 := Register(s, q, xs[0].data);
    var jd := xs[k].data;
    MetAreMembers(s1, q, xs[1..]);
    assert forall d :: Satisfied(s1, d, jd.allowFailures) == Satisfied(s, d, jd.allowFailures);
    if k == 0 {
      assert xs[0] !in xs[1..];
      assert Members(s1.dependencies, jd.id) == Members(s.dependencies, jd.id) + ToSet(jd.deps);
    } else {
      assert xs[1..][k - 1] == xs[k];
      MetExactly(s1, q, xs[1..], k - 1);
      assert Members(s1.dependencies, jd.id) == Members(s.dependencies, jd.id);
    }
  }

  lemma {:induction false} SavedAsDeferred(s: Store, q: QueueName, xs: seq<Item>, k: nat)
    requires k < |xs|
    ensures xs[k].data.id in SaveAll(s, q, xs).jobs && SaveAll(s, q, xs).jobs[xs[k].data.id].status == Deferred
    decreases |xs|
  {
    if exists b :: 1 <= b < |xs| && xs[b].data.id == xs[k].data.id {
      var b :| 1 <= b < |xs| && xs[b].data.id == xs[k].data.id;
      assert xs[1..][b - 1] == xs[b];
      SavedAsDeferred(Save(s, q, xs[0].data, Deferred), q, xs[1..], b - 1);
    } else {
      StaysSaved(Save(s, q, xs[0].data, Deferred), q, xs[1..], xs[0].data.id);
    }
  }

  lemma {:induction false} StaysSaved(s: Store, q: QueueName, xs: seq<Item>, id: JobId)
    requires forall b :: 0 <= b < |xs| ==> xs[b].data.id != id
    ensures id in SaveAll(s, q, xs).jobs <==> id in s.jobs
    ensures id in s.jobs ==> SaveAll(s, q, xs).jobs[id] == s.jobs[id]
    decreases |xs|
  {
    if xs != [] { StaysSaved(Save(s, q, xs[0].data, Deferred), q, xs[1..], id); }
  }

  /** An entry that depends on another dependent entry of the batch always waits: all of
      them are saved as DEFERRED before any is looked at. */
  lemma WaitsForTheBatch(s: Store, q: QueueName, jds: seq<EnqueueData>, k: nat, l: nat)
    requires k < |DependentOf(jds)| && l < |DependentOf(jds)| && DistinctIds(DependentOf(jds))
    requires DependentOf(jds)[l].data.id in DependentOf(jds)[k].data.deps
    ensures DependentOf(jds)[k] !in MetItems(s, q, jds)
  {
    var xs := DependentOf(jds);
    SavedAsDeferred(Pushed(s, q, jds), q, xs, l);
    MetExactly(Saved(s, q, jds), q, xs, k);
    var d := xs[l].data.id;
    assert d in Members(Saved(s, q, jds).dependencies, xs[k].data.id) + ToSet(xs[k].data.deps);
    assert !Satisfied(Saved(s, q, jds), d, xs[k].data.allowFailures);
  }

  lemma {:induction false} MetDistinct(s: Store, q: QueueName, xs: seq<Item>)
    requires DistinctIds(xs)
    ensures DistinctIds(MetOf(s, q, xs))
    decreases |xs|
  {
    if xs != [] {
      var s1 := Register(s, q, xs[0].data);
      MetDistinct(s1, q, xs[1..]);
      MetAreMembers(s1, q, xs[1..]);
      var rest := MetOf(s1, q, xs[1..]);
      forall b | 0 <= b < |rest| ensures rest[b].data.id != xs[0].data.id {
        assert rest[b] in xs[1..];
        var l :| 0 <= l < |xs[1..]| && xs[1..][l] == rest[b];
        assert xs[l + 1] == rest[b];
      }
    }
  }

  ghost predicate AllDistinct(jds: seq<EnqueueData>) {
    forall i, k :: 0 <= i < k < |jds| ==> jds[i].id != jds[k].id
  }

  /** Entries of the batch with the same id are the same. */
  lemma ByIdAndIndex(jds: seq<EnqueueData>, xs: seq<Item>, x: Item)
    requires AllDistinct(jds) && x.index < |jds| && x.data == jds[x.index]
    requires forall y :: y in xs ==> y.index < |jds| && y.data == jds[y.index]
    ensures forall k :: 0 <= k < |xs| && xs[k].data.id == x.data.id ==> xs[k] == x
    ensures Ascending(xs) ==> DistinctIds(xs)
  {
    forall k | 0 <= k < |xs| ensures xs[k] in xs {}
  }

  lemma ClassesOnce(jds: seq<EnqueueData>, x: Item)
    requires AllDistinct(jds) && x.index < |jds| && x.data == jds[x.index]
    ensures DistinctIds(UniqueOf(jds)) && DistinctIds(NormalOf(jds)) && DistinctIds(DependentOf(jds))
    ensures forall k :: 0 <= k < |UniqueOf(jds)| && UniqueOf(jds)[k].data.id == x.data.id ==> UniqueOf(jds)[k] == x
    ensures forall k :: 0 <= k < |NormalOf(jds)| && NormalOf(jds)[k].data.id == x.data.id ==> NormalOf(jds)[k] == x
    ensures forall k :: 0 <= k < |DependentOf(jds)| && DependentOf(jds)[k].data.id == x.data.id ==> DependentOf(jds)[k] == x
  {
    ItemsAre(jds, UniqueEntry, 0);
    ItemsAre(jds, NormalEntry, 0);
    ItemsAre(jds, DependentEntry, 0);
    ByIdAndIndex(jds, UniqueOf(jds), x);
    ByIdAndIndex(jds, NormalOf(jds), x);
    ByIdAndIndex(jds, DependentOf(jds), x);
  }

  /** What an entry without dependencies is saved as: QUEUED, with its own fields. */
  lemma PushedEntry(s: Store, q: QueueName, jds: seq<EnqueueData>, x: Item)
    requires AllDistinct(jds) && x.index < |jds| && x.data == jds[x.index] && x.data.deps == []
    ensures var t, jd := Pushed(s, q, jds), x.data;
      jd.id in t.jobs && t.jobs[jd.id] == JobHash(Queued, q, [], jd.depFront, jd.allowFailures)
  {
    ClassesOnce(jds, x);
    ClassesAre(jds, x);
    var u, n := UniqueOf(jds), NormalOf(jds);
    if x in u {
      var k :| 0 <= k < |u| && u[k] == x;
      PushedJobs(s, q, u, x.data.id);
      assert x !in n;
      forall l | 0 <= l < |n| ensures n[l].data.id != x.data.id { assert n[l] in n; }
      PushedJobs(PushAll(s, q, u), q, n, x.data.id);
    } else {
      var k :| 0 <= k < |n| && n[k] == x;
      PushedJobs(PushAll(s, q, u), q, n, x.data.id);
    }
  }

  /** What each entry of a batch is saved as in the end: QUEUED, unless it has dependencies
      that are not met. */
  lemma BatchSaves(s: Store, q: QueueName, jds: seq<EnqueueData>, x: Item)
    requires AllDistinct(jds) && x.index < |jds| && x.data == jds[x.index]
    ensures var t, jd := Batch(s, q, jds), x.data;
      && jd.id in t.jobs
      && t.jobs[jd.id] == JobHash(if jd.deps != [] && x !in MetItems(s, q, jds) then Deferred else Queued,
                                  q, jd.deps, jd.depFront, jd.allowFailures)
  {
    ClassesOnce(jds, x);
    ClassesAre(jds, x);
    var d, met := DependentOf(jds), MetItems(s, q, jds);
    MetDistinct(Saved(s, q, jds), q, d);
    MetAreMembers(Saved(s, q, jds), q, d);
    RegisteredKeeps(Saved(s, q, jds), q, d);
    SavedEntry(s, q, jds, x);
    MetOnes(met, d, x);
    PushedJobs(RegisterAll(Saved(s, q, jds), q, d), q, met, x.data.id);
  }

  /** Registration: each entry is added to the deferred registry and to the dependents of
      each of its dependencies, which become its own. */
  lemma {:induction false} RegisteredIn(s: Store, q: QueueName, xs: seq<Item>, id: JobId, d: JobId)
    ensures var t := RegisterAll(s, q, xs);
      && (id in Members(t.deferred, q) <==> id in Members(s.deferred, q) || exists k :: 0 <= k < |xs| && xs[k].data.id == id)
      && (id in Members(t.dependents, d) <==>
            id in Members(s.dependents, d) || exists k :: 0 <= k < |xs| && xs[k].data.id == id && d in xs[k].data.deps)
      && (d in Members(t.dependencies, id) <==>
            d in Members(s.dependencies, id) || exists k :: 0 <= k < |xs| && xs[k].data.id == id && d in xs[k].data.deps)
    decreases |xs|
  {
    if xs != [] {
      var jd := xs[0].data;
      AddDependentsEffect(s.dependents, jd.id, jd.deps);
      RegisteredIn(Register(s, q, jd), q, xs[1..], id, d);
      ShiftOne(xs, id, d);
    }
  }

  lemma ShiftOne(xs: seq<Item>, id: JobId, d: JobId)
    requires xs != []
    ensures (exists k :: 0 <= k < |xs| && xs[k].data.id == id)
      <==> xs[0].data.id == id || exists k :: 0 <= k < |xs[1..]| && xs[1..][k].data.id == id
    ensures (exists k :: 0 <= k < |xs| && xs[k].data.id == id && d in xs[k].data.deps)
      <==> ((xs[0].data.id == id && d in xs[0].data.deps)
            || exists k :: 0 <= k < |xs[1..]| && xs[1..][k].data.id == id && d in xs[1..][k].data.deps)
  {
    if k :| 1 <= k < |xs| && xs[k].data.id == id { assert xs[1..][k - 1] == xs[k]; }
    if k :| 0 <= k < |xs[1..]| && xs[1..][k].data.id == id { assert xs[k + 1] == xs[1..][k]; }
    if k :| 1 <= k < |xs| && xs[k].data.id == id && d in xs[k].data.deps { assert xs[1..][k - 1] == xs[k]; }
    if k :| 0 <= k < |xs[1..]| && xs[1..][k].data.id == id && d in xs[1..][k].data.deps { assert xs[k + 1] == xs[1..][k]; }
  }

  /** Pushing takes jobs with dependencies out of the deferred registry, and leaves the
      indexes alone. */
  lemma {:induction false} PushedIn(s: Store, q: QueueName, xs: seq<Item>, id: JobId)
    ensures var t := PushAll(s, q, xs);
      && t.dependents == s.dependents && t.dependencies == s.dependencies
      && (id in Members(t.deferred, q) <==>
            id in Members(s.deferred, q) && !exists k :: 0 <= k < |xs| && xs[k].data.id == id && xs[k].data.deps != [])
    decreases |xs|
  {
    if xs != [] {
      PushedIn(PushEntry(s, q, xs[0].data), q, xs[1..], id);
      if k :| 1 <= k < |xs| && xs[k].data.id == id && xs[k].data.deps != [] { assert xs[1..][k - 1] == xs[k]; }
      if k :| 0 <= k < |xs[1..]| && xs[1..][k].data.id == id && xs[1..][k].data.deps != [] { assert xs[k + 1] == xs[1..][k]; }
    }
  }

  lemma {:induction false} SavedIn(s: Store, q: QueueName, xs: seq<Item>)
    ensures var t := SaveAll(s, q, xs);
      t.dependents == s.dependents && t.dependencies == s.dependencies && t.deferred == s.deferred
    decreases |xs|
  {
    if xs != [] { SavedIn(Save(s, q, xs[0].data, Deferred), q, xs[1..]); }
  }

  /** Where a dependent entry is recorded after the batch: among the dependents of each of
      its dependencies, and in the deferred registry exactly if it has to wait. */
  lemma BatchRegisters(s: Store, q: QueueName, jds: seq<EnqueueData>, x: Item, d: JobId)
    requires AllDistinct(jds) && x.index < |jds| && x.data == jds[x.index] && x.data.deps != []
    ensures var t, id := Batch(s, q, jds), x.data.id;
      && (id in Members(t.deferred, q) <==> x !in MetItems(s, q, jds))
      && (id in Members(t.dependents, d) <==> id in Members(s.dependents, d) || d in x.data.deps)
      && (d in Members(t.dependencies, id) <==> d in Members(s.dependencies, id) || d in x.data.deps)
  {
    ClassesOnce(jds, x);
    ClassesAre(jds, x);
    var xs, met, id := DependentOf(jds), MetItems(s, q, jds), x.data.id;
    var s1, s2 := PushAll(s, q, UniqueOf(jds)), Pushed(s, q, jds);
    PushedIn(s, q, UniqueOf(jds), id);
    PushedIn(s1, q, NormalOf(jds), id);
    SavedIn(s2, q, xs);
    RegisteredIn(Saved(s, q, jds), q, xs, id, d);
    MetAreMembers(Saved(s, q, jds), q, xs);
    MetOnes(met, xs, x);
    PushedIn(RegisterAll(Saved(s, q, jds), q, xs), q, met, id);
    var k :| 0 <= k < |xs| && xs[k] == x;
    assert xs[k].data.id == id;
  }

  lemma MetOnes(met: seq<Item>, d: seq<Item>, x: Item)
    requires forall y :: y in met ==> y in d
    requires forall k :: 0 <= k < |d| && d[k].data.id == x.data.id ==> d[k] == x
    ensures x !in met ==> forall k :: 0 <= k < |met| ==> met[k].data.id != x.data.id
    ensures x in met ==> exists k :: 0 <= k < |met| && met[k] == x
  {
    forall k | 0 <= k < |met| ensures met[k].data.id == x.data.id ==> met[k] == x {
      assert met[k] in met;
    }
  }

  /** Before the entries with met dependencies are pushed. */
  lemma SavedEntry(s: Store, q: QueueName, jds: seq<EnqueueData>, x: Item)
    requires AllDistinct(jds) && x.index < |jds| && x.data == jds[x.index]
    ensures var t, jd := Saved(s, q, jds), x.data;
      && jd.id in t.jobs
      && t.jobs[jd.id] == JobHash(if jd.deps != [] then Deferred else Queued, q, jd.deps, jd.depFront, jd.allowFailures)
  {
    ClassesOnce(jds, x);
    ClassesAre(jds, x);
    var d := DependentOf(jds);
    if x in d {
      var k :| 0 <= k < |d| && d[k] == x;
      DeferredJobs(Pushed(s, q, jds), q, d, k);
    } else {
      PushedEntry(s, q, jds, x);
      forall k | 0 <= k < |d| ensures d[k].data.id != x.data.id { assert d[k] in d; }
      StaysSaved(Pushed(s, q, jds), q, d, x.data.id);
    }
  }

  // ---------- The results ----------

  function IndexSet(xs: seq<Item>): set<nat> {
    set k | 0 <= k < |xs| :: xs[k].index
  }

  /** The index a dependent job's result is stored under: that of the last dependent
      entry with its id. */
  function LastIndex(xs: seq<Item>, id: JobId): Option<nat> {
    if xs == [] then None
    else if xs[|xs| - 1].data.id == id then Some(xs[|xs| - 1].index)
    else LastIndex(xs[..|xs| - 1], id)
  }

  ghost predicate IsLookup(m: map<JobId, nat>, xs: seq<Item>) {
    forall id :: LastIndex(xs, id) == if id in m then Some(m[id]) else None
  }

  lemma {:induction false} LastIndexIs(xs: seq<Item>, k: nat) returns (b: nat)
    requires k < |xs|
    ensures k <= b < |xs| && LastIndex(xs, xs[k].data.id) == Some(xs[b].index) && xs[b].data.id == xs[k].data.id
  {
    var n := |xs| - 1;
    if xs[n].data.id == xs[k].data.id {
      b := n;
    } else {
      assert xs[..n][k] == xs[k];
      b := LastIndexIs(xs[..n], k);
    }
  }

  /** The keys the dependent jobs' results end up under. */
  ghost predicate Placed(keys: set<nat>, m: map<JobId, nat>, xs: seq<Item>) {
    && (forall k :: 0 <= k < |xs| ==> xs[k].data.id in m && m[xs[k].data.id] in keys)
    && forall i :: i in keys ==> exists k :: 0 <= k < |xs| && xs[k].data.id in m && m[xs[k].data.id] == i
  }

  lemma PlacedAtIndex(xs: seq<Item>, m: map<JobId, nat>, keys: set<nat>, k: nat)
    requires k < |xs| && IsLookup(m, xs) && Placed(keys, m, xs) && DistinctIds(xs)
    ensures xs[k].index in keys
  {
    var b := LastIndexIs(xs, k);
    assert LastIndex(xs, xs[k].data.id) == Some(m[xs[k].data.id]);
  }

  lemma EarlierIsMissing(xs: seq<Item>, m: map<JobId, nat>, keys: set<nat>, a: nat, b: nat)
    requires Ascending(xs) && IsLookup(m, xs) && Placed(keys, m, xs)
    requires a < b < |xs| && xs[a].data.id == xs[b].data.id
    ensures xs[a].index !in keys
  {
    if xs[a].index in keys {
      var k :| 0 <= k < |xs| && xs[k].data.id in m && m[xs[k].data.id] == xs[a].index;
      var c := LastIndexIs(xs, k);
      assert LastIndex(xs, xs[k].data.id) == Some(m[xs[k].data.id]);
      var _ := LastIndexIs(xs, b);
    }
  }

  /** Every entry gets a result exactly when no two dependent entries share an id. */
  lemma CompleteExactly(xs: seq<Item>, m: map<JobId, nat>, keys: set<nat>)
    requires Ascending(xs) && IsLookup(m, xs) && Placed(keys, m, xs)
    ensures (forall k :: 0 <= k < |xs| ==> xs[k].index in keys) <==> DistinctIds(xs)
  {
    if DistinctIds(xs) {
      forall k | 0 <= k < |xs| ensures xs[k].index in keys {
        PlacedAtIndex(xs, m, keys, k);
      }
    } else {
      var a, b :| 0 <= a < b < |xs| && xs[a].data.id == xs[b].data.id;
      EarlierIsMissing(xs, m, keys, a, b);
    }
  }

  // ---------- The client ----------

  /** Results recorded so far are for the right entries. */
  ghost predicate Correct(results: map<nat, JobId>, jds: seq<EnqueueData>) {
    forall i :: i in results ==> i < |jds| && results[i] == jds[i].id
  }

  /** The results are those of `before` and of `xs`, each for the right entry. */
  ghost predicate Recorded(results: map<nat, JobId>, before: set<nat>, xs: seq<Item>, jds: seq<EnqueueData>) {
    Correct(results, jds) && results.Keys == before + IndexSet(xs)
  }

  lemma RecordOne(results: map<nat, JobId>, before: set<nat>, xs: seq<Item>, n: nat, jds: seq<EnqueueData>)
    requires n < |xs| && xs[n].index < |jds| && xs[n].data == jds[xs[n].index]
    requires Recorded(results, before, xs[..n], jds)
    ensures Recorded(results[xs[n].index := xs[n].data.id], before, xs[..n + 1], jds)
  {
    IndexSetSnoc(xs, n);
  }

  ghost predicate NoneDuplicate(s: Store, q: QueueName, jds: seq<EnqueueData>, n: nat) {
    forall k :: 0 <= k < n && k < |UniqueOf(jds)| ==> !Duplicate(s, q, jds, k)
  }

  lemma DuplicateIs(s: Store, q: QueueName, jds: seq<EnqueueData>, n: nat, t: Store)
    requires n < |UniqueOf(jds)| && t == PushAll(s, q, UniqueOf(jds)[..n]) && NoneDuplicate(s, q, jds, n)
    ensures Duplicate(s, q, jds, n) <==> UniqueOf(jds)[n].data.id in t.jobs
    ensures UniqueOf(jds)[n].data.id !in t.jobs ==> NoneDuplicate(s, q, jds, n + 1)
  {
  }

  /** The items have been sorted into the two lists. */
  ghost predicate SortedInto(met: seq<Item>, unmet: seq<Item>, xs: seq<Item>) {
    forall x :: x in met || x in unmet <==> x in xs
  }

  lemma SortedParts(met: seq<Item>, unmet: seq<Item>, xs: seq<Item>)
    requires SortedInto(met, unmet, xs)
    ensures (forall x :: x in met ==> x in xs) && (forall x :: x in unmet ==> x in xs)
  {
  }

  lemma SortOne(met: seq<Item>, unmet: seq<Item>, xs: seq<Item>, n: nat)
    requires n < |xs| && SortedInto(met, unmet, xs[..n])
    ensures SortedInto(met + [xs[n]], unmet, xs[..n + 1]) && SortedInto(met, unmet + [xs[n]], xs[..n + 1])
  {
    assert xs[..n + 1] == xs[..n] + [xs[n]];
  }

  lemma RegisterOne(s: Store, q: QueueName, ys: seq<Item>, t: Store)
    requires ys != [] && t == Register(s, q, ys[0].data)
    ensures RegisterAll(s, q, ys) == RegisterAll(t, q, ys[1..])
    ensures MetOf(s, q, ys) == (if AllMet(t, ys[0].data) then [ys[0]] else []) + MetOf(t, q, ys[1..])
  {
  }

  lemma Associate(met: seq<Item>, x: Item, rest: seq<Item>)
    ensures met + ([x] + rest) == (met + [x]) + rest && met + ([] + rest) == met + rest
  {
  }

  lemma Keyed(jds: seq<EnqueueData>, m: map<JobId, nat>, x: Item)
    requires IsLookup(m, DependentOf(jds)) && x in DependentOf(jds)
    ensures x.data.id in m && m[x.data.id] < |jds| && jds[m[x.data.id]].id == x.data.id
  {
    var xs := DependentOf(jds);
    var k :| 0 <= k < |xs| && xs[k] == x;
    var b := LastIndexIs(xs, k);
    assert LastIndex(xs, x.data.id) == Some(xs[b].index);
    ItemAt(jds, DependentEntry, b);
  }

  lemma PlaceOne(keys: set<nat>, m: map<JobId, nat>, xs: seq<Item>, n: nat)
    requires n < |xs| && xs[n].data.id in m && Placed(keys, m, xs[..n])
    ensures Placed(keys + {m[xs[n].data.id]}, m, xs[..n + 1])
  {
    var ys, i0 := xs[..n + 1], m[xs[n].data.id];
    forall k | 0 <= k < |ys| ensures ys[k].data.id in m && m[ys[k].data.id] in keys + {i0} {
      if k < n { assert ys[k] == xs[..n][k]; }
    }
    forall i | i in keys + {i0} ensures exists k :: 0 <= k < |ys| && ys[k].data.id in m && m[ys[k].data.id] == i {
      if i in keys {
        var k :| 0 <= k < n && xs[..n][k].data.id in m && m[xs[..n][k].data.id] == i;
        assert ys[k] == xs[..n][k];
      } else {
        assert ys[n] == xs[n];
      }
    }
  }

  lemma PlacedTogether(a: set<nat>, b: set<nat>, m: map<JobId, nat>, met: seq<Item>, unmet: seq<Item>, xs: seq<Item>)
    requires Placed(a, m, met) && Placed(b, m, unmet) && SortedInto(met, unmet, xs)
    ensures Placed(a + b, m, xs)
  {
    forall k | 0 <= k < |xs| ensures xs[k].data.id in m && m[xs[k].data.id] in a + b {
      assert xs[k] in xs;
      if xs[k] in met {
        var l :| 0 <= l < |met| && met[l] == xs[k];
      } else {
        var l :| 0 <= l < |unmet| && unmet[l] == xs[k];
      }
    }
    forall i | i in a + b ensures exists k :: 0 <= k < |xs| && xs[k].data.id in m && m[xs[k].data.id] == i {
      var x := if i in a then PlacedBy(a, m, met, i) else PlacedBy(b, m, unmet, i);
      assert x in xs;
      var k :| 0 <= k < |xs| && xs[k] == x;
    }
  }

  ghost function PlacedBy(keys: set<nat>, m: map<JobId, nat>, xs: seq<Item>, i: nat): (x: Item)
    requires Placed(keys, m, xs) && i in keys
    ensures x in xs && x.data.id in m && m[x.data.id] == i
  {
    var k :| 0 <= k < |xs| && xs[k].data.id in m && m[xs[k].data.id] == i;
    xs[k]
  }

  class Queue {
    const name: QueueName
    var store: Store

    constructor (name: QueueName, s: Store)
      ensures this.name == name && store == s
    {
      this.name := name;
      store := s;
    }

    /** The Lua script: checked, saved and pushed in one step, or refused. */
    method SaveUniqueJob(jd: EnqueueData) returns (saved: bool)
      requires jd.deps == []
      modifies this`store
      ensures saved <==> jd.id !in old(store).jobs
      ensures store == if saved then PushEntry(old(store), name, jd) else old(store)
    {
      if jd.id in store.jobs { return false; }
      store := store.(jobs := store.jobs[jd.id := HashOf(name, jd, Queued)]);
      var ids := ListAt(store.queues, name);
      store := store.(queues := store.queues[name := if jd.atFront then [jd.id] + ids else ids + [jd.id]]);
      return true;
    }

    /** Stops at the first duplicate, with the entries before it already pushed. */
    method EnqueueUnique(jds: seq<EnqueueData>) returns (pushed: nat, results: map<nat, JobId>)
      modifies this`store
      ensures pushed <= |UniqueOf(jds)|
      ensures store == PushAll(old(store), name, UniqueOf(jds)[..pushed])
      ensures NoneDuplicate(old(store), name, jds, pushed)
      ensures pushed < |UniqueOf(jds)| ==> Duplicate(old(store), name, jds, pushed)
      ensures Recorded(results, {}, UniqueOf(jds)[..pushed], jds)
    {
      var xs := UniqueOf(jds);
      results := map[];
      pushed := 0;
      while pushed < |xs|
        invariant pushed <= |xs| && xs == UniqueOf(jds)
        invariant store == PushAll(old(store), name, xs[..pushed])
        invariant NoneDuplicate(old(store), name, jds, pushed)
        invariant Recorded(results, {}, xs[..pushed], jds)
      {
        var x := xs[pushed];
        ItemAt(jds, UniqueEntry, pushed);
        PushSnoc(old(store), name, xs, pushed);
        RecordOne(results, {}, xs, pushed, jds);
        DuplicateIs(old(store), name, jds, pushed, store);
        var saved := SaveUniqueJob(x.data);
        if !saved { return; }
        results := results[x.index := x.data.id];
        pushed := pushed + 1;
      }
    }

    method EnqueueNormal(jds: seq<EnqueueData>, results: map<nat, JobId>) returns (results': map<nat, JobId>)
      requires Correct(results, jds)
      modifies this`store
      ensures store == PushAll(old(store), name, NormalOf(jds))
      ensures Recorded(results', results.Keys, NormalOf(jds), jds)
    {
      var xs := NormalOf(jds);
      results' := results;
      var n := 0;
      while n < |xs|
        invariant n <= |xs| && xs == NormalOf(jds)
        invariant store == PushAll(old(store), name, xs[..n])
        invariant Recorded(results', results.Keys, xs[..n], jds)
      {
        ItemAt(jds, NormalEntry, n);
        PushSnoc(old(store), name, xs, n);
        RecordOne(results', results.Keys, xs, n, jds);
        store := PushEntry(store, name, xs[n].data);
        results' := results'[xs[n].index := xs[n].data.id];
        n := n + 1;
      }
      assert xs[..n] == xs;
    }

    method SaveDeferred(xs: seq<Item>)
      modifies this`store
      ensures store == SaveAll(old(store), name, xs)
    {
      var n := 0;
      while n < |xs|
        invariant n <= |xs| && SaveAll(store, name, xs[n..]) == SaveAll(old(store), name, xs)
      {
        assert xs[n..][1..] == xs[n + 1..];
        store := Save(store, name, xs[n].data, Deferred);
        n := n + 1;
      }
      assert xs[n..] == [];
    }

    /** `get_jobs_with_met_dependencies`. */
    method JobsWithMetDependencies(xs: seq<Item>) returns (met: seq<Item>, unmet: seq<Item>)
      modifies this`store
      ensures store == RegisterAll(old(store), name, xs) && met == MetOf(old(store), name, xs)
      ensures SortedInto(met, unmet, xs)
    {
      met, unmet := [], [];
      var n := 0;
      while n < |xs|
        invariant n <= |xs|
        invariant RegisterAll(store, name, xs[n..]) == RegisterAll(old(store), name, xs)
        invariant met + MetOf(store, name, xs[n..]) == MetOf(old(store), name, xs)
        invariant SortedInto(met, unmet, xs[..n])
      {
        assert xs[n..][0] == xs[n] && xs[n..][1..] == xs[n + 1..];
        RegisterOne(store, name, xs[n..], Register(store, name, xs[n].data));
        Associate(met, xs[n], MetOf(Register(store, name, xs[n].data), name, xs[n + 1..]));
        SortOne(met, unmet, xs, n);
        store := Register(store, name, xs[n].data);
        if AllMet(store, xs[n].data) { met := met + [xs[n]]; } else { unmet := unmet + [xs[n]]; }
        n := n + 1;
      }
      assert xs[n..] == [] && xs[..n] == xs;
    }

    /** Results of dependent jobs go under the index looked up for their id. */
    method RecordDependent(jds: seq<EnqueueData>, xs: seq<Item>, m: map<JobId, nat>, results: map<nat, JobId>)
      returns (results': map<nat, JobId>, ghost keys: set<nat>)
      requires (forall x :: x in xs ==> x in DependentOf(jds)) && IsLookup(m, DependentOf(jds))
      requires Correct(results, jds)
      ensures Correct(results', jds) && results'.Keys == results.Keys + keys && Placed(keys, m, xs)
    {
      results', keys := results, {};
      var n := 0;
      while n < |xs|
        invariant n <= |xs|
        invariant Correct(results', jds) && results'.Keys == results.Keys + keys && Placed(keys, m, xs[..n])
      {
        var id := xs[n].data.id;
        Keyed(jds, m, xs[n]);
        PlaceOne(keys, m, xs, n);
        results' := results'[m[id] := id];
        keys := keys + {m[id]};
        n := n + 1;
      }
      assert xs[..n] == xs;
    }

    method PushMet(met: seq<Item>)
      modifies this`store
      ensures store == PushAll(old(store), name, met)
    {
      var n := 0;
      while n < |met|
        invariant n <= |met| && PushAll(store, name, met[n..]) == PushAll(old(store), name, met)
      {
        assert met[n..][1..] == met[n + 1..];
        store := PushEntry(store, name, met[n].data);
        n := n + 1;
      }
      assert met[n..] == [];
    }

    /** Entries with dependencies: saved, registered, and pushed if they are met. */
    method EnqueueDependent(jds: seq<EnqueueData>, results: map<nat, JobId>)
      returns (results': map<nat, JobId>, ghost m: map<JobId, nat>, ghost keys: set<nat>)
      requires Correct(results, jds)
      modifies this`store
      ensures var s1 := SaveAll(old(store), name, DependentOf(jds));
        store == PushAll(RegisterAll(s1, name, DependentOf(jds)), name, MetOf(s1, name, DependentOf(jds)))
      ensures Correct(results', jds) && results'.Keys == results.Keys + keys
      ensures IsLookup(m, DependentOf(jds)) && Placed(keys, m, DependentOf(jds))
    {
      var xs := DependentOf(jds);
      SaveDeferred(xs);
      var met, unmet := JobsWithMetDependencies(xs);
      var idToIdx := Lookup(xs);
      m := idToIdx;
      PushMet(met);
      SortedParts(met, unmet, xs);
      ghost var a, b;
      results', a := RecordDependent(jds, met, idToIdx, results);
      results', b := RecordDependent(jds, unmet, idToIdx, results');
      PlacedTogether(a, b, m, met, unmet, xs);
      keys := a + b;
    }

    /** A batch is rejected as a whole, or stops at its first duplicate with the unique
        entries before it pushed, or is carried out entirely. It then fails only at the
        end, exactly when two dependent entries share an id; otherwise the i-th result
        is the i-th entry's job. */
    method EnqueueMany(jds: seq<EnqueueData>) returns (r: Outcome)
      modifies this`store
      ensures r.ValueError? <==>
        exists i :: 0 <= i < |jds| && jds[i].unique && (jds[i].deps != [] || !jds[i].explicitId)
      ensures r.ValueError? ==> store == old(store)
      ensures !r.ValueError? ==> (r.DuplicateJobError? <==> exists j: nat :: AsksForTakenId(old(store), jds, j))
      ensures r.DuplicateJobError? ==> exists j: nat :: AsksForTakenId(old(store), jds, j) && r.id == jds[j].id
      ensures r.DuplicateJobError? ==> FirstDuplicate(old(store), name, jds, r.id, store)
      ensures r.Jobs? || r.KeyError? ==>
        NoneDuplicate(old(store), name, jds, |UniqueOf(jds)|) && store == Batch(old(store), name, jds)
      ensures r.KeyError? ==> !DistinctIds(DependentOf(jds))
      ensures r.Jobs? ==>
        && DistinctIds(DependentOf(jds))
        && |r.ids| == |jds| && forall i :: 0 <= i < |jds| ==> r.ids[i] == jds[i].id
    {
      var refused := AnyRejected(jds);
      if refused { return ValueError; }
      var pushed, results := EnqueueUnique(jds);
      if pushed < |UniqueOf(jds)| {
        assert FirstDuplicate(old(store), name, jds, UniqueOf(jds)[pushed].data.id, store);
        DuplicateAsks(old(store), name, jds, pushed);
        return DuplicateJobError(UniqueOf(jds)[pushed].data.id);
      }
      assert UniqueOf(jds)[..pushed] == UniqueOf(jds);
      NobodyAsks(old(store), name, jds);
      var results2 := EnqueueNormal(jds, results);
      ghost var m, keys;
      var results3;
      results3, m, keys := EnqueueDependent(jds, results2);
      r := Rebuild(jds, results3, m, keys);
    }

    /** The loop that looks at every entry before anything is sent. */
    method AnyRejected(jds: seq<EnqueueData>) returns (r: bool)
      ensures r <==> exists i :: 0 <= i < |jds| && jds[i].unique && (jds[i].deps != [] || !jds[i].explicitId)
    {
      var n := 0;
      while n < |jds|
        invariant n <= |jds|
        invariant forall i :: 0 <= i < n ==> !(jds[i].unique && (jds[i].deps != [] || !jds[i].explicitId))
      {
        if jds[n].unique && (jds[n].deps != [] || !jds[n].explicitId) { return true; }
        n := n + 1;
      }
      return false;
    }

    /** The final list comprehension: a missing index is a KeyError. */
    method Rebuild(jds: seq<EnqueueData>, results: map<nat, JobId>, ghost m: map<JobId, nat>, ghost keys: set<nat>)
      returns (r: Outcome)
      requires Correct(results, jds) && IsLookup(m, DependentOf(jds)) && Placed(keys, m, DependentOf(jds))
      requires results.Keys == IndexSet(UniqueOf(jds)) + IndexSet(NormalOf(jds)) + keys
      ensures r.Jobs? || r.KeyError?
      ensures r.KeyError? ==> !DistinctIds(DependentOf(jds))
      ensures r.Jobs? ==>
        && DistinctIds(DependentOf(jds))
        && |r.ids| == |jds| && forall i :: 0 <= i < |jds| ==> r.ids[i] == jds[i].id
    {
      var ids := [];
      while |ids| < |jds|
        invariant |ids| <= |jds|
        invariant forall i :: 0 <= i < |ids| ==> i in results && ids[i] == jds[i].id
        decreases |jds| - |ids|
      {
        if |ids| !in results {
          MissingMeansShared(jds, m, keys, |ids|);
          return KeyError;
        }
        ids := ids + [results[|ids|]];
      }
      AllPresentMeansDistinct(jds, results.Keys, m, keys);
      return Jobs(ids);
    }
  }

  /** The id belongs to the first unique entry whose id is taken, and the entries before
      that one are what has been pushed. */
  ghost predicate FirstDuplicate(s: Store, q: QueueName, jds: seq<EnqueueData>, id: JobId, t: Store) {
    exists n :: (0 <= n < |UniqueOf(jds)| && Duplicate(s, q, jds, n) && NoneDuplicate(s, q, jds, n)
      && id == UniqueOf(jds)[n].data.id && t == PushAll(s, q, UniqueOf(jds)[..n]))
  }

  lemma MissingMeansShared(jds: seq<EnqueueData>, m: map<JobId, nat>, keys: set<nat>, i: nat)
    requires IsLookup(m, DependentOf(jds)) && Placed(keys, m, DependentOf(jds))
    requires i < |jds| && i !in IndexSet(UniqueOf(jds)) + IndexSet(NormalOf(jds)) + keys
    ensures !DistinctIds(DependentOf(jds))
  {
    PartitionCovers(jds, Item(i, jds[i]));
    InIndexSet(UniqueOf(jds), Item(i, jds[i]));
    InIndexSet(NormalOf(jds), Item(i, jds[i]));
    var xs := DependentOf(jds);
    assert Item(i, jds[i]) in xs;
    var k :| 0 <= k < |xs| && xs[k] == Item(i, jds[i]);
    if DistinctIds(xs) { PlacedAtIndex(xs, m, keys, k); }
  }

  lemma InIndexSet(xs: seq<Item>, x: Item)
    ensures x in xs ==> x.index in IndexSet(xs)
  {
  }

  lemma AllPresentMeansDistinct(jds: seq<EnqueueData>, all: set<nat>, m: map<JobId, nat>, keys: set<nat>)
    requires IsLookup(m, DependentOf(jds)) && Placed(keys, m, DependentOf(jds))
    requires all == IndexSet(UniqueOf(jds)) + IndexSet(NormalOf(jds)) + keys
    requires forall i :: 0 <= i < |jds| ==> i in all
    ensures DistinctIds(DependentOf(jds))
  {
    var xs := DependentOf(jds);
    forall k | 0 <= k < |xs| ensures xs[k].index in keys {
      DependentKeyed(jds, all, keys, k);
    }
    DependentAscending(jds);
    CompleteExactly(xs, m, keys);
  }

  lemma DependentAscending(jds: seq<EnqueueData>)
    ensures Ascending(DependentOf(jds))
  {
    ItemsAre(jds, DependentEntry, 0);
  }

  lemma DependentKeyed(jds: seq<EnqueueData>, all: set<nat>, keys: set<nat>, k: nat)
    requires all == IndexSet(UniqueOf(jds)) + IndexSet(NormalOf(jds)) + keys
    requires forall i :: 0 <= i < |jds| ==> i in all
    requires k < |DependentOf(jds)|
    ensures DependentOf(jds)[k].index in keys
  {
    var x := DependentOf(jds)[k];
    ItemAt(jds, DependentEntry, k);
    assert x.index in all;
    NotInClass(jds, UniqueEntry, x);
    NotInClass(jds, NormalEntry, x);
  }

  lemma NotInClass(jds: seq<EnqueueData>, k: Kind, x: Item)
    requires x.index < |jds| && x.data == jds[x.index] && KindOf(x.data) != k
    ensures x.index !in IndexSet(Items(jds, k, 0))
  {
    var ys := Items(jds, k, 0);
    if x.index in IndexSet(ys) {
      var l :| 0 <= l < |ys| && ys[l].index == x.index;
      ItemAt(jds, k, l);
    }
  }

  method Lookup(xs: seq<Item>) returns (m: map<JobId, nat>)
    ensures IsLookup(m, xs)
  {
    m := map[];
    var n := 0;
    while n < |xs|
      invariant n <= |xs| && IsLookup(m, xs[..n])
    {
      assert xs[..n + 1][..n] == xs[..n];
      m := m[xs[n].data.id := xs[n].index];
      n := n + 1;
    }
    assert xs[..n] == xs;
  }

  lemma ItemAt(jds: seq<EnqueueData>, k: Kind, n: nat)
    requires n < |Items(jds, k, 0)|
    ensures var x := Items(jds, k, 0)[n];
      x.index < |jds| && x.data == jds[x.index] && KindOf(x.data) == k
  {
    ItemsAre(jds, k, 0);
    assert Items(jds, k, 0)[n] in Items(jds, k, 0);
  }

  lemma PushSnoc(s: Store, q: QueueName, xs: seq<Item>, n: nat)
    requires n < |xs|
    ensures PushAll(s, q, xs[..n + 1]) == PushEntry(PushAll(s, q, xs[..n]), q, xs[n].data)
  {
    assert xs[..n + 1] == xs[..n] + [xs[n]];
    PushAllInTwo(s, q, xs[..n], [xs[n]]);
    assert [xs[n]][1..] == [];
  }

  lemma IndexSetSnoc(xs: seq<Item>, n: nat)
    requires n < |xs|
    ensures IndexSet(xs[..n + 1]) == IndexSet(xs[..n]) + {xs[n].index}
  {
    var a, b := IndexSet(xs[..n + 1]), IndexSet(xs[..n]) + {xs[n].index};
    forall i | i in b ensures i in a {
      if i in IndexSet(xs[..n]) {
        var k :| 0 <= k < n && xs[..n][k].index == i;
        assert xs[..n + 1][k].index == i;
      } else {
        assert xs[..n + 1][n].index == i;
      }
    }
    forall i | i in a ensures i in b {
      var k :| 0 <= k < n + 1 && xs[..n + 1][k].index == i;
      if k < n { assert xs[..n][k].index == i; }
    }
  }
}
