/** Dependency handling as it really runs: every client interleaves single WATCH,
    read and EXEC commands with the others (rq/queue.py, rq/job.py,
    rq/worker/base.py). The main theorem says that every such run is a serial run
    of DependencyProtocol.dfy in commit order. */
module WatchedProtocol {
  import opened Common
  import opened DependencyStore
  import opened DependencyProtocol

  // ---------- WATCH and EXEC ----------

  datatype Key = JobKey(j: JobId) | DependentsKey(j: JobId) | DependenciesKey(j: JobId)

  type Versions = map<Key, nat>

  function Ver(v: Versions, k: Key): nat {
    if k in v then v[k] else 0
  }

  /** The versions a client's connection saw when it watched. */
  type WatchSet = map<Key, nat>

  /** WATCH of a key already watched keeps the earlier watch. */
  function Watch(w: WatchSet, v: Versions, ks: set<Key>): WatchSet {
    map k | k in w.Keys + ks :: if k in w then w[k] else Ver(v, k)
  }

  /** EXEC goes through exactly when no watched key was touched. */
  predicate Unchanged(w: WatchSet, v: Versions) {
    forall k :: k in w ==> Ver(v, k) == w[k]
  }

  function JobKeys(deps: seq<JobId>): set<Key> {
    set d | d in deps :: JobKey(d)
  }

  /** Every written key gets a new version. Other keys may be touched too
      (EXPIRE does that), which can only make more transactions fail. */
  ghost predicate Touches(v: Versions, v': Versions, written: set<Key>) {
    forall k :: Ver(v', k) >= Ver(v, k) && (k in written ==> Ver(v', k) > Ver(v, k))
  }

  function Written(e: Event): set<Key> {
    match e
    case ParkJob(c, h) => {JobKey(c), DependenciesKey(c)} + (set d | d in h.deps :: DependentsKey(d))
    case ClearJob(_, _) => {}
    case PushCleared(c, _) => {JobKey(c)}
    case FinishJob(x, order) => {JobKey(x)} + JobKeys(order) + (if order == [] then {} else {DependentsKey(x)})
    case Rescan(x, order, _) => JobKeys(order) + (if order == [] then {} else {DependentsKey(x)})
    case SetStatus(j, _) => {JobKey(j)}
    case SetQueues(_) => {}
  }

  // ---------- Clients ----------

  /** The local variables of one pass through `enqueue_dependents`; `local` is the
      parent's status if the caller goes by its own copy. */
  datatype Scan = Scan(
    x: JobId,
    finishing: bool,
    local: Option<JobStatus>,
    w: WatchSet,
    ids: set<JobId>,
    hs: map<JobId, JobHash>,
    todo: seq<JobId>,
    chosen: seq<JobId>)

  datatype Client =
    | Idle
      // setup_dependencies, then the push of enqueue_job
    | EnqueueCall(c: JobId, h: JobHash, front: bool)
    | OwnWatched(c: JobId, h: JobHash, front: bool, w: WatchSet)
    | ParentsWatched(c: JobId, h: JobHash, front: bool, w: WatchSet)
    | MustWait(c: JobId, h: JobHash, front: bool, w: WatchSet)
    | MayRun(c: JobId, front: bool)
      // handle_job_success (finishing), or enqueue_dependents after a failure, or for an
      // abandoned job whose cleanup has not sent its own transaction yet (local)
    | ScanCall(x: JobId, finishing: bool, local: Option<JobStatus>)
    | DependentsWatched(x: JobId, finishing: bool, local: Option<JobStatus>, w: WatchSet)
    | DependentsRead(x: JobId, finishing: bool, local: Option<JobStatus>, w: WatchSet, ids: set<JobId>)
    | Scanning(sc: Scan)
    | ChildWatched(sc: Scan)
    | ChildRead(sc: Scan, deps: set<JobId>)
    | ParentRead(sc: Scan, deps: set<JobId>, st: JobStatus)

  datatype System = System(
    proto: Protocol,
    ver: Versions,
    clients: map<nat, Client>,
    claimed: set<JobId>)

  /** What `dependencies_are_met` and the CANCELED test answer for the next child,
      from the values this client has read and the statuses it reads now. */
  predicate Decision(s: Store, sc: Scan, deps: set<JobId>, st: JobStatus)
    requires sc.todo != [] && sc.todo[0] in sc.hs
  {
    var h := sc.hs[sc.todo[0]];
    && !Blocked(st, h.allowFailures)
    && (forall d :: d in deps - {sc.x} ==> Satisfied(s, d, h.allowFailures))
    && h.status != Canceled
  }

  /** The store a wake-up transaction writes, from the client's own copies. */
  function WakeCommit(p: Protocol, sc: Scan): Protocol
    requires sc.x in p.store.jobs && forall c :: c in sc.chosen ==> c in sc.hs
  {
    p.(store := if sc.finishing then Finish(p.store, sc.hs, sc.x, sc.chosen) else Wake(p.store, sc.hs, sc.x, sc.chosen),
       pushes := CountPushes(p.pushes, sc.chosen),
       successes := if sc.finishing then CountPushes(p.successes, [sc.x]) else p.successes)
  }

  function WakeEvent(sc: Scan): Event {
    if sc.finishing then FinishJob(sc.x, sc.chosen) else Rescan(sc.x, sc.chosen, sc.local)
  }

  /** One command of an enqueuer. */
  ghost predicate EnqueueStep(p: Protocol, v: Versions, pc: Client, ev: Option<Event>, p': Protocol, v': Versions, pc': Client) {
    match pc
    case EnqueueCall(c, h, front) =>
      if h.deps == [] then
        Clears(p, v, c, h, ev, p', v') && pc' == MayRun(c, front)
      else
        Reads(p, v, ev, p', v') && pc' == OwnWatched(c, h, front, Watch(map[], v, {DependenciesKey(c)}))
    case OwnWatched(c, h, front, w) =>
      Reads(p, v, ev, p', v') && pc' == ParentsWatched(c, h, front, Watch(w, v, JobKeys(h.deps)))
    case ParentsWatched(c, h, front, w) =>
      if HasPending(p.store, h.deps) then
        Reads(p, v, ev, p', v') && pc' == MustWait(c, h, front, w)
      else
        Clears(p, v, c, h, ev, p', v') && pc' == MayRun(c, front)
    case MustWait(c, h, front, w) =>
      if Unchanged(w, v) then
        && ev == Some(ParkJob(c, h))
        && Touches(v, v', Written(ParkJob(c, h)))
        && p' == p.(store := Park(p.store, c, h), complete := Examined(p, c, h.deps))
        && pc' == Idle
      else
        Reads(p, v, ev, p', v') && pc' == EnqueueCall(c, h, front)
    case MayRun(c, front) =>
      && ev == Some(PushCleared(c, front))
      && Touches(v, v', {JobKey(c)})
      && c in p.cleared
      && p' == p.(store := Enqueue(p.store, c, p.cleared[c], front),
                  cleared := p.cleared - {c},
                  pushes := CountPushes(p.pushes, [c]))
      && pc' == Idle
    case _ => false
  }

  ghost predicate Reads(p: Protocol, v: Versions, ev: Option<Event>, p': Protocol, v': Versions) {
    ev == None && p' == p && Touches(v, v', {})
  }

  /** The fast path decides at this read; nothing is written yet. */
  ghost predicate Clears(p: Protocol, v: Versions, c: JobId, h: JobHash, ev: Option<Event>, p': Protocol, v': Versions) {
    && ev == Some(ClearJob(c, h))
    && Touches(v, v', {})
    && p' == p.(cleared := p.cleared[c := h], complete := Examined(p, c, h.deps))
  }

  /** The hashes `fetch_many` returns for the ids it is given. */
  function Fetch(s: Store, ids: set<JobId>): map<JobId, JobHash> {
    map c | c in ids && c in s.jobs :: s.jobs[c]
  }

  /** One command of a client waking dependents. */
  ghost predicate ScanStep(p: Protocol, v: Versions, pc: Client, ev: Option<Event>, p': Protocol, v': Versions, pc': Client) {
    match pc
    case ScanCall(x, fin, local) =>
      Reads(p, v, ev, p', v') && pc' == DependentsWatched(x, fin, local, Watch(map[], v, {DependentsKey(x)}))
    case DependentsWatched(x, fin, local, w) =>
      Reads(p, v, ev, p', v') && pc' == DependentsRead(x, fin, local, w, Members(p.store.dependents, x))
    case DependentsRead(x, fin, local, w, ids) =>
      && Reads(p, v, ev, p', v')
      && pc'.Scanning?
      && var hs := Fetch(p.store, ids);
      && pc'.sc == Scan(x, fin, local, w, ids, hs, pc'.sc.todo, [])
      && NoDup(pc'.sc.todo) && ToSet(pc'.sc.todo) == hs.Keys
    case Scanning(sc) =>
      if sc.todo != [] then
        && Reads(p, v, ev, p', v')
        && sc.todo[0] in sc.hs
        && pc' == ChildWatched(sc.(w := Watch(sc.w, v, JobKeys(sc.hs[sc.todo[0]].deps))))
      else if !sc.finishing && sc.chosen == [] then
        Reads(p, v, ev, p', v') && pc' == Idle
      else if Unchanged(sc.w, v) then
        && sc.x in p.store.jobs && (forall c :: c in sc.chosen ==> c in sc.hs)
        && ev == Some(WakeEvent(sc))
        && Touches(v, v', Written(WakeEvent(sc)))
        && p' == WakeCommit(p, sc)
        && pc' == Idle
      else
        Reads(p, v, ev, p', v') && pc' == ScanCall(sc.x, sc.finishing, sc.local)
    case ChildWatched(sc) =>
      && sc.todo != []
      && Reads(p, v, ev, p', v')
      && pc' == ChildRead(sc, Members(p.store.dependencies, sc.todo[0]))
    case ChildRead(sc, deps) =>
      && sc.x in p.store.jobs
      && Reads(p, v, ev, p', v')
      && pc' == ParentRead(sc, deps, StatusSeen(p.store, sc.x, sc.local))
    case ParentRead(sc, deps, st) =>
      && sc.todo != [] && sc.todo[0] in sc.hs
      && Reads(p, v, ev, p', v')
      && var chosen := if Decision(p.store, sc, deps, st) then sc.chosen + [sc.todo[0]] else sc.chosen;
      && pc' == Scanning(sc.(todo := sc.todo[1..], chosen := chosen))
    case _ => false
  }

  ghost predicate ClientStep(s: System, i: nat, ev: Option<Event>, s': System) {
    && i in s.clients && i in s'.clients
    && s'.clients == s.clients[i := s'.clients[i]]
    && s'.claimed == s.claimed
    && (EnqueueStep(s.proto, s.ver, s.clients[i], ev, s'.proto, s'.ver, s'.clients[i])
        || ScanStep(s.proto, s.ver, s.clients[i], ev, s'.proto, s'.ver, s'.clients[i]))
  }

  /** Operations that clients begin. A job id is enqueued once; a worker that
      reports a success or a failure was given a job that had been enqueued. */
  ghost predicate MayStart(s: System, pc: Client) {
    match pc
    case Idle => true // also: the client crashed
    case EnqueueCall(c, _, _) => c !in s.claimed
    case ScanCall(x, fin, local) =>
      && x in s.proto.store.jobs && Caller(fin, local)
      && (fin ==> s.proto.store.jobs[x].status == Started)
    case _ => false
  }

  /** A finishing worker reads the parent's status; so does a failing one, but the cleanup
      of an abandoned job takes it to be FAILED. */
  predicate Caller(finishing: bool, local: Option<JobStatus>) {
    local == None || (!finishing && local == Some(Failed))
  }

  function Claims(pc: Client): set<JobId> {
    if pc.EnqueueCall? then {pc.c} else {}
  }

  ghost predicate StartStep(s: System, i: nat, ev: Option<Event>, s': System) {
    && i in s'.clients && MayStart(s, s'.clients[i])
    && (s'.clients[i] == Idle || i !in s.clients || s.clients[i] == Idle)
    && s' == s.(clients := s.clients[i := s'.clients[i]], claimed := s.claimed + Claims(s'.clients[i]))
    && ev == None
  }

  /** Status changes and queue traffic caused by everything else. */
  ghost predicate OutsideStep(s: System, ev: Option<Event>, s': System) {
    && ev.Some? && (ev.value.SetStatus? || ev.value.SetQueues?)
    && Enabled(s.proto, ev.value)
    && s'.proto == Apply(s.proto, ev.value)
    && Touches(s.ver, s'.ver, Written(ev.value))
    && s'.clients == s.clients && s'.claimed == s.claimed
  }

  ghost predicate Next(s: System, ev: Option<Event>, s': System) {
    || (exists i :: ClientStep(s, i, ev, s'))
    || (exists i :: StartStep(s, i, ev, s'))
    || OutsideStep(s, ev, s')
  }

  const Boot := System(Start, map[], map[], {})

  /** An interleaved run, with the transaction each step committed, if any. */
  ghost predicate Run(s: System, evs: seq<Option<Event>>, states: seq<System>)
    decreases |evs|
  {
    && |states| == |evs|
    && (evs != [] ==> Next(s, evs[0], states[0]) && Run(states[0], evs[1..], states[1..]))
  }

  function Last(s: System, states: seq<System>): System {
    if states == [] then s else states[|states| - 1]
  }

  function Committed(evs: seq<Option<Event>>): seq<Event>
    decreases |evs|
  {
    if evs == [] then []
    else (if evs[0].Some? then [evs[0].value] else []) + Committed(evs[1..])
  }

  // ---------- What every step of anyone guarantees to a waiting client ----------

  ghost predicate Rely(s: Store, v: Versions, t: Store, v': Versions) {
    && (forall k :: Ver(v', k) >= Ver(v, k))
    && (forall j :: Ver(v', JobKey(j)) == Ver(v, JobKey(j)) ==>
          (j in t.jobs <==> j in s.jobs) && (j in s.jobs ==> t.jobs[j] == s.jobs[j]))
    && (forall x :: Ver(v', DependentsKey(x)) == Ver(v, DependentsKey(x)) ==>
          Members(t.dependents, x) == Members(s.dependents, x))
    && (forall j :: j in s.jobs ==>
          && j in t.jobs && SameSpec(t.jobs[j], s.jobs[j])
          && (t.jobs[j].status == Deferred ==> s.jobs[j].status == Deferred)
          && Members(t.dependencies, j) == Members(s.dependencies, j))
  }

  lemma WokenRely(s: Store, t: Store, x: JobId, finishing: bool, order: seq<JobId>, v: Versions, v': Versions)
    requires Woken(s, t, x, finishing, order)
    requires Touches(v, v', (if finishing then {JobKey(x)} else {}) + JobKeys(order)
                            + (if order == [] then {} else {DependentsKey(x)}))
    ensures Rely(s, v, t, v')
  {
    forall j | Ver(v', JobKey(j)) == Ver(v, JobKey(j))
      ensures (j in t.jobs <==> j in s.jobs) && (j in s.jobs ==> t.jobs[j] == s.jobs[j])
    {
      assert JobKey(j) !in JobKeys(order);
      assert j !in order && !(finishing && j == x);
    }
    forall y | Ver(v', DependentsKey(y)) == Ver(v, DependentsKey(y))
      ensures Members(t.dependents, y) == Members(s.dependents, y)
    {
      assert y != x || order == [];
    }
  }

  lemma ParkedRely(s: Store, t: Store, c: JobId, h: JobHash, v: Versions, v': Versions)
    requires ParkedIn(s, t, c, h) && c !in s.jobs
    requires Touches(v, v', Written(ParkJob(c, h)))
    ensures Rely(s, v, t, v')
  {
    forall y | Ver(v', DependentsKey(y)) == Ver(v, DependentsKey(y))
      ensures Members(t.dependents, y) == Members(s.dependents, y)
    {
      assert y in h.deps ==> DependentsKey(y) in Written(ParkJob(c, h));
    }
  }

  /** The transactions that change no dependents or dependencies set. */
  lemma HashRely(s: Store, t: Store, j: JobId, v: Versions, v': Versions)
    requires t.dependents == s.dependents && t.dependencies == s.dependencies
    requires j in t.jobs && t.jobs == s.jobs[j := t.jobs[j]]
    requires j in s.jobs ==> SameSpec(t.jobs[j], s.jobs[j])
    requires t.jobs[j].status != Deferred
    requires Touches(v, v', {JobKey(j)})
    ensures Rely(s, v, t, v')
  {
  }

  lemma EventRely(p: Protocol, e: Event, v: Versions, v': Versions)
    requires Enabled(p, e) && Touches(v, v', Written(e))
    ensures Rely(p.store, v, Apply(p, e).store, v')
  {
    var s, t := p.store, Apply(p, e).store;
    match e
    case ParkJob(c, h) =>
      ParkIsParked(s, c, h);
      ParkedRely(s, t, c, h, v, v');
    case FinishJob(x, order) => FinishRely(p, x, order, v, v');
    case Rescan(x, order, local) => RescanRely(p, x, order, local, v, v');
    case PushCleared(c, _) => HashRely(s, t, c, v, v');
    case SetStatus(j, _) => HashRely(s, t, j, v, v');
    case _ =>
  }

  lemma FinishRely(p: Protocol, x: JobId, order: seq<JobId>, v: Versions, v': Versions)
    requires Enabled(p, FinishJob(x, order)) && Touches(v, v', Written(FinishJob(x, order)))
    ensures Rely(p.store, v, Apply(p, FinishJob(x, order)).store, v')
  {
    FinishIsWoken(p.store, x, order);
    WokenRely(p.store, Apply(p, FinishJob(x, order)).store, x, true, order, v, v');
  }

  lemma RescanRely(p: Protocol, x: JobId, order: seq<JobId>, local: Option<JobStatus>, v: Versions, v': Versions)
    requires Enabled(p, Rescan(x, order, local)) && Touches(v, v', Written(Rescan(x, order, local)))
    ensures Rely(p.store, v, Apply(p, Rescan(x, order, local)).store, v')
  {
    WakeIsWoken(p.store, x, order);
    WokenRely(p.store, Apply(p, Rescan(x, order, local)).store, x, false, order, v, v');
  }

  // ---------- What a client knows between two of its commands ----------

  ghost predicate SeenBefore(w: WatchSet, v: Versions) {
    forall k :: k in w ==> w[k] <= Ver(v, k)
  }

  ghost predicate Watches(w: WatchSet, deps: seq<JobId>) {
    forall d :: d in deps ==> JobKey(d) in w
  }

  /** The dependents a scan has read, as long as nobody touched the set. */
  ghost predicate IdsKnown(s: Store, v: Versions, x: JobId, finishing: bool, w: WatchSet, ids: set<JobId>) {
    && SeenBefore(w, v) && DependentsKey(x) in w
    && x in s.jobs && (finishing ==> s.jobs[x].status != Deferred)
    && (Unchanged(w, v) ==> ids == Members(s.dependents, x))
    && (forall c :: c in ids ==> IsDependent(s, x, c))
  }

  ghost predicate IsDependent(s: Store, x: JobId, c: JobId) {
    c in s.jobs && x in s.jobs[c].deps && Members(s.dependencies, c) == ToSet(s.jobs[c].deps)
  }

  /** The verdict on a child already examined still holds if nothing was touched. */
  ghost predicate Decided(s: Store, v: Versions, sc: Scan, c: JobId)
    requires sc.x in s.jobs && c in s.jobs && c in sc.hs
  {
    && Watches(sc.w, s.jobs[c].deps)
    && (Unchanged(sc.w, v) ==>
          (c in sc.chosen <==> MetFor(s, sc.x, StatusSeen(s, sc.x, sc.local), c) && sc.hs[c].status != Canceled))
  }

  ghost predicate ScanKnown(s: Store, v: Versions, sc: Scan) {
    && IdsKnown(s, v, sc.x, sc.finishing, sc.w, sc.ids) && Caller(sc.finishing, sc.local)
    && sc.hs.Keys == sc.ids
    && (forall c :: c in sc.ids ==> SameSpec(sc.hs[c], s.jobs[c]))
    && (forall c :: c in sc.ids && s.jobs[c].status == Deferred ==> sc.hs[c].status == Deferred)
    && NoDup(sc.todo) && NoDup(sc.chosen)
    && ToSet(sc.todo) <= sc.ids && ToSet(sc.chosen) <= sc.ids - ToSet(sc.todo)
    && (forall c :: c in sc.ids && c !in sc.todo ==> Decided(s, v, sc, c))
  }

  ghost predicate Knows(s: Store, v: Versions, pc: Client) {
    match pc
    case Idle => true
    case EnqueueCall(_, _, _) => true
    case OwnWatched(_, _, _, w) => SeenBefore(w, v)
    case ParentsWatched(_, h, _, w) => SeenBefore(w, v) && Watches(w, h.deps)
    case MustWait(_, h, _, w) =>
      SeenBefore(w, v) && Watches(w, h.deps) && (Unchanged(w, v) ==> HasPending(s, h.deps))
    case MayRun(_, _) => true
    case ScanCall(x, fin, local) => x in s.jobs && (fin ==> s.jobs[x].status != Deferred) && Caller(fin, local)
    case DependentsWatched(x, fin, local, w) =>
      && SeenBefore(w, v) && DependentsKey(x) in w
      && x in s.jobs && (fin ==> s.jobs[x].status != Deferred) && Caller(fin, local)
    case DependentsRead(x, fin, local, w, ids) => IdsKnown(s, v, x, fin, w, ids) && Caller(fin, local)
    case Scanning(sc) => ScanKnown(s, v, sc)
    case ChildWatched(sc) => ChildKnown(s, v, sc)
    case ChildRead(sc, deps) => ChildKnown(s, v, sc) && deps == ToSet(sc.hs[sc.todo[0]].deps)
    case ParentRead(sc, deps, st) =>
      && ChildKnown(s, v, sc) && deps == ToSet(sc.hs[sc.todo[0]].deps)
      && (Unchanged(sc.w, v) ==> st == StatusSeen(s, sc.x, sc.local))
  }

  ghost predicate ChildKnown(s: Store, v: Versions, sc: Scan) {
    ScanKnown(s, v, sc) && sc.todo != [] && Watches(sc.w, sc.hs[sc.todo[0]].deps)
  }

  // ---------- Other clients' steps do not invalidate what a client knows ----------

  lemma UnchangedBefore(w: WatchSet, s: Store, v: Versions, t: Store, v': Versions)
    requires SeenBefore(w, v) && Rely(s, v, t, v')
    ensures SeenBefore(w, v')
    ensures Unchanged(w, v') ==> Unchanged(w, v) && forall k :: k in w ==> Ver(v', k) == Ver(v, k)
  {
  }

  lemma IdsStable(s: Store, v: Versions, t: Store, v': Versions, x: JobId, fin: bool, w: WatchSet, ids: set<JobId>)
    requires IdsKnown(s, v, x, fin, w, ids) && Rely(s, v, t, v')
    ensures IdsKnown(t, v', x, fin, w, ids)
  {
    UnchangedBefore(w, s, v, t, v');
    forall c | c in ids ensures IsDependent(t, x, c) {
      assert IsDependent(s, x, c);
    }
  }

  lemma PendingStable(s: Store, v: Versions, t: Store, v': Versions, w: WatchSet, deps: seq<JobId>)
    requires SeenBefore(w, v) && Rely(s, v, t, v') && Watches(w, deps)
    requires Unchanged(w, v')
    ensures HasPending(t, deps) <==> HasPending(s, deps)
  {
    UnchangedBefore(w, s, v, t, v');
    forall d | d in deps ensures Pending(t, d) <==> Pending(s, d) {
      assert JobKey(d) in w;
    }
  }

  lemma MetStable(
    s: Store, v: Versions, t: Store, v': Versions, w: WatchSet, x: JobId, local: Option<JobStatus>, c: JobId)
    requires SeenBefore(w, v) && Rely(s, v, t, v') && Unchanged(w, v')
    requires x in s.jobs && c in s.jobs && IsDependent(s, x, c) && Watches(w, s.jobs[c].deps)
    ensures x in t.jobs && c in t.jobs
    ensures MetFor(t, x, StatusSeen(t, x, local), c) <==> MetFor(s, x, StatusSeen(s, x, local), c)
  {
    UnchangedBefore(w, s, v, t, v');
    forall d | d in s.jobs[c].deps
      ensures (d in t.jobs <==> d in s.jobs) && (d in s.jobs ==> t.jobs[d] == s.jobs[d])
    {
      assert JobKey(d) in w;
    }
  }

  lemma ScanStable(s: Store, v: Versions, t: Store, v': Versions, sc: Scan)
    requires ScanKnown(s, v, sc) && Rely(s, v, t, v')
    ensures ScanKnown(t, v', sc)
  {
    IdsStable(s, v, t, v', sc.x, sc.finishing, sc.w, sc.ids);
    forall c | c in sc.ids && c !in sc.todo ensures Decided(t, v', sc, c) {
      assert Decided(s, v, sc, c) && IsDependent(s, sc.x, c);
      UnchangedBefore(sc.w, s, v, t, v');
      if Unchanged(sc.w, v') { MetStable(s, v, t, v', sc.w, sc.x, sc.local, c); }
    }
  }

  lemma KnowsStable(s: Store, v: Versions, t: Store, v': Versions, pc: Client)
    requires Knows(s, v, pc) && Rely(s, v, t, v')
    ensures Knows(t, v', pc)
  {
    match pc
    case OwnWatched(_, _, _, w) => UnchangedBefore(w, s, v, t, v');
    case ParentsWatched(_, _, _, w) => UnchangedBefore(w, s, v, t, v');
    case MustWait(_, h, _, w) =>
      UnchangedBefore(w, s, v, t, v');
      if Unchanged(w, v') { PendingStable(s, v, t, v', w, h.deps); }
    case DependentsWatched(_, _, _, w) => UnchangedBefore(w, s, v, t, v');
    case DependentsRead(x, fin, _, w, ids) => IdsStable(s, v, t, v', x, fin, w, ids);
    case Scanning(sc) => ScanStable(s, v, t, v', sc);
    case ChildWatched(sc) => ScanStable(s, v, t, v', sc);
    case ChildRead(sc, _) => ScanStable(s, v, t, v', sc);
    case ParentRead(sc, _, st) =>
      ScanStable(s, v, t, v', sc);
      UnchangedBefore(sc.w, s, v, t, v');
      if Unchanged(sc.w, v') {
        assert IsDependent(s, sc.x, sc.todo[0]);
        assert sc.x in sc.hs[sc.todo[0]].deps;
        assert JobKey(sc.x) in sc.w;
      }
    case _ =>
  }

  // ---------- Each command: what it commits and what the client then knows ----------

  /** The step commits exactly the event it announces. */
  ghost predicate Commits(p: Protocol, ev: Option<Event>, p': Protocol) {
    match ev
    case None => p' == p
    case Some(e) => Enabled(p, e) && p' == Apply(p, e)
  }

  lemma WatchKnown(w: WatchSet, v: Versions, ks: set<Key>, v': Versions)
    requires SeenBefore(w, v) && Touches(v, v', {})
    ensures SeenBefore(Watch(w, v, ks), v') && Watch(w, v, ks).Keys == w.Keys + ks
    ensures Unchanged(Watch(w, v, ks), v') ==> Unchanged(w, v')
  {
    var w2 := Watch(w, v, ks);
    if Unchanged(w2, v') {
      forall k | k in w ensures Ver(v', k) == w[k] {
        assert k in w2 && w2[k] == w[k];
      }
    }
  }

  /** What an enqueuer needs to know about ids: the one it handles is its own. */
  ghost predicate OwnsId(p: Protocol, pc: Client) {
    match pc
    case EnqueueCall(c, _, _) => c !in p.store.jobs && c !in p.cleared
    case OwnWatched(c, _, _, _) => c !in p.store.jobs && c !in p.cleared
    case ParentsWatched(c, _, _, _) => c !in p.store.jobs && c !in p.cleared
    case MustWait(c, _, _, _) => c !in p.store.jobs && c !in p.cleared
    case MayRun(c, _) => c !in p.store.jobs && c in p.cleared
    case _ => true
  }

  lemma EnqueueSimulates(p: Protocol, v: Versions, pc: Client, ev: Option<Event>, p': Protocol, v': Versions, pc': Client)
    requires EnqueueStep(p, v, pc, ev, p', v', pc')
    requires Knows(p.store, v, pc) && OwnsId(p, pc)
    ensures Commits(p, ev, p') && Knows(p'.store, v', pc')
    ensures ev.Some? ==> Touches(v, v', Written(ev.value))
    ensures ev == None ==> Touches(v, v', {})
  {
    match pc
    case EnqueueCall(c, h, front) =>
      if h.deps != [] { WatchKnown(map[], v, {DependenciesKey(c)}, v'); }
    case OwnWatched(c, h, front, w) =>
      WatchKnown(w, v, JobKeys(h.deps), v');
      assert Watches(Watch(w, v, JobKeys(h.deps)), h.deps);
    case _ =>
  }

  /** A pass that reaches EXEC untouched has picked a valid order. */
  lemma ScanPicksValidOrder(s: Store, v: Versions, sc: Scan)
    requires ScanKnown(s, v, sc) && sc.todo == [] && Unchanged(sc.w, v)
    ensures ValidOrderFor(s, sc.x, StatusSeen(s, sc.x, sc.local), sc.chosen)
  {
    var st := StatusSeen(s, sc.x, sc.local);
    forall c | c in sc.chosen ensures c in Members(s.dependents, sc.x) && c in s.jobs && MetFor(s, sc.x, st, c) {
      assert c in sc.ids && IsDependent(s, sc.x, c) && Decided(s, v, sc, c);
    }
    forall c | c in Members(s.dependents, sc.x) && c in s.jobs && s.jobs[c].status == Deferred && MetFor(s, sc.x, st, c)
      ensures c in sc.chosen
    {
      assert c in sc.ids && Decided(s, v, sc, c);
    }
  }

  /** Writing the client's copies is the same as writing the current hashes. */
  lemma CommitUsesCurrentHashes(p: Protocol, v: Versions, sc: Scan)
    requires ScanKnown(p.store, v, sc) && sc.todo == [] && Unchanged(sc.w, v)
    requires sc.finishing || sc.chosen != []
    ensures forall c :: c in sc.chosen ==> c in sc.hs && c in p.store.jobs
    ensures Enabled(p, WakeEvent(sc)) && WakeCommit(p, sc) == Apply(p, WakeEvent(sc))
  {
    ScanPicksValidOrder(p.store, v, sc);
    assert forall c :: c in sc.chosen ==> c in sc.ids;
    EnqueueAllCopies(p.store, sc.hs, p.store.jobs, sc.chosen);
  }

  lemma FetchKnown(
    s: Store, v: Versions, x: JobId, fin: bool, local: Option<JobStatus>, w: WatchSet, ids: set<JobId>,
    todo: seq<JobId>, v': Versions)
    requires IdsKnown(s, v, x, fin, w, ids) && Caller(fin, local) && Touches(v, v', {})
    requires NoDup(todo) && ToSet(todo) == Fetch(s, ids).Keys
    ensures ScanKnown(s, v', Scan(x, fin, local, w, ids, Fetch(s, ids), todo, []))
  {
    forall c | c in ids ensures c in Fetch(s, ids) {
      assert IsDependent(s, x, c);
    }
    IdsStable(s, v, s, v', x, fin, w, ids);
  }

  lemma WatchChildKnown(s: Store, v: Versions, sc: Scan, v': Versions)
    requires ScanKnown(s, v, sc) && sc.todo != [] && Touches(v, v', {})
    requires sc.todo[0] in sc.hs
    ensures ChildKnown(s, v', sc.(w := Watch(sc.w, v, JobKeys(sc.hs[sc.todo[0]].deps))))
  {
    var deps := sc.hs[sc.todo[0]].deps;
    var sc' := sc.(w := Watch(sc.w, v, JobKeys(deps)));
    WatchKnown(sc.w, v, JobKeys(deps), v');
    assert Watches(sc'.w, deps);
    ScanStable(s, v, s, v', sc);
    forall c | c in sc.ids && c !in sc.todo ensures Decided(s, v', sc', c) {
      assert Decided(s, v', sc, c);
      assert forall d :: d in s.jobs[c].deps ==> JobKey(d) in sc.w;
    }
  }

  /** The verdict reached step by step is the one on a single consistent store. */
  lemma DecisionIsMet(s: Store, v: Versions, sc: Scan, deps: set<JobId>, st: JobStatus)
    requires Knows(s, v, ParentRead(sc, deps, st)) && Unchanged(sc.w, v)
    ensures sc.x in s.jobs && sc.todo[0] in s.jobs
    ensures Decision(s, sc, deps, st)
      <==> MetFor(s, sc.x, StatusSeen(s, sc.x, sc.local), sc.todo[0]) && sc.hs[sc.todo[0]].status != Canceled
    ensures var seen, h := if sc.local.Some? then sc.local.value else s.jobs[sc.x].status, s.jobs[sc.todo[0]];
      Decision(s, sc, deps, st) <==>
        && seen != Canceled && seen != Stopped && (seen == Failed ==> h.allowFailures)
        && (forall d :: d in h.deps && d != sc.x && d in s.jobs ==>
              s.jobs[d].status == Finished || (s.jobs[d].status == Failed && h.allowFailures))
        && sc.hs[sc.todo[0]].status != Canceled
  {
    var c := sc.todo[0];
    assert c in sc.ids && IsDependent(s, sc.x, c);
    assert deps == Members(s.dependencies, c);
    assert forall d :: d in deps - {sc.x} <==> d in deps && d != sc.x;
    MetForExactly(s, sc.x, StatusSeen(s, sc.x, sc.local), c);
  }

  lemma VerdictKnown(s: Store, v: Versions, sc: Scan, deps: set<JobId>, st: JobStatus, yes: bool)
    requires Knows(s, v, ParentRead(sc, deps, st))
    requires yes == Decision(s, sc, deps, st)
    ensures ScanKnown(s, v, sc.(todo := sc.todo[1..], chosen := if yes then sc.chosen + [sc.todo[0]] else sc.chosen))
  {
    var c := sc.todo[0];
    var sc' := sc.(todo := sc.todo[1..], chosen := if yes then sc.chosen + [c] else sc.chosen);
    MovedOn(sc, yes);
    assert c in sc.ids && c !in sc.chosen;
    forall j | j in sc'.ids && j !in sc'.todo ensures Decided(s, v, sc', j) {
      if j == c { JustDecided(s, v, sc, deps, st, sc'); } else { assert Decided(s, v, sc, j); }
    }
  }

  lemma MovedOn(sc: Scan, yes: bool)
    requires sc.todo != [] && NoDup(sc.todo) && NoDup(sc.chosen) && sc.todo[0] !in sc.chosen
    ensures var chosen := if yes then sc.chosen + [sc.todo[0]] else sc.chosen;
      && NoDup(sc.todo[1..]) && NoDup(chosen)
      && (forall j :: j in sc.todo <==> j == sc.todo[0] || j in sc.todo[1..])
      && sc.todo[0] !in sc.todo[1..]
      && (forall j :: j in chosen <==> j in sc.chosen || (yes && j == sc.todo[0]))
  {
    NoDupSplit(sc.todo, 0);
  }

  lemma JustDecided(s: Store, v: Versions, sc: Scan, deps: set<JobId>, st: JobStatus, sc': Scan)
    requires Knows(s, v, ParentRead(sc, deps, st)) && sc'.w == sc.w && sc'.hs == sc.hs && sc'.x == sc.x && sc'.local == sc.local
    requires sc.todo[0] in sc'.chosen <==> Decision(s, sc, deps, st)
    ensures sc.todo[0] in s.jobs && sc.todo[0] in sc.hs && Decided(s, v, sc', sc.todo[0])
  {
    var c := sc.todo[0];
    assert c in sc.ids && IsDependent(s, sc.x, c);
    if Unchanged(sc.w, v) { DecisionIsMet(s, v, sc, deps, st); }
  }

  lemma ParentReadSimulates(s: Store, v: Versions, sc: Scan, deps: set<JobId>, st: JobStatus, v': Versions)
    requires Knows(s, v, ParentRead(sc, deps, st)) && Touches(v, v', {})
    ensures var chosen := if Decision(s, sc, deps, st) then sc.chosen + [sc.todo[0]] else sc.chosen;
      ScanKnown(s, v', sc.(todo := sc.todo[1..], chosen := chosen))
  {
    KnowsStable(s, v, s, v', ParentRead(sc, deps, st));
    VerdictKnown(s, v', sc, deps, st, Decision(s, sc, deps, st));
  }

  lemma ScanningSimulates(p: Protocol, v: Versions, sc: Scan, ev: Option<Event>, p': Protocol, v': Versions, pc': Client)
    requires ScanStep(p, v, Scanning(sc), ev, p', v', pc') && ScanKnown(p.store, v, sc)
    ensures Commits(p, ev, p') && Knows(p'.store, v', pc')
    ensures ev.Some? ==> Touches(v, v', Written(ev.value))
    ensures ev == None ==> Touches(v, v', {})
  {
    if sc.todo != [] {
      WatchChildKnown(p.store, v, sc, v');
    } else if (sc.finishing || sc.chosen != []) && Unchanged(sc.w, v) {
      CommitUsesCurrentHashes(p, v, sc);
    }
  }

  lemma DependentsSimulates(p: Protocol, v: Versions, pc: Client, ev: Option<Event>, p': Protocol, v': Versions, pc': Client)
    requires ScanStep(p, v, pc, ev, p', v', pc')
    requires StoreStructure(p.store) && Knows(p.store, v, pc)
    requires pc.ScanCall? || pc.DependentsWatched? || pc.DependentsRead?
    ensures Commits(p, ev, p') && Knows(p'.store, v', pc')
    ensures ev.Some? ==> Touches(v, v', Written(ev.value))
    ensures ev == None ==> Touches(v, v', {})
  {
    match pc
    case ScanCall(x, fin, local) => WatchKnown(map[], v, {DependentsKey(x)}, v');
    case DependentsWatched(x, fin, local, w) => DependentsReadKnown(p.store, v, x, fin, local, w, v');
    case DependentsRead(x, fin, local, w, ids) => FetchKnown(p.store, v, x, fin, local, w, ids, pc'.sc.todo, v');
  }

  lemma ChildSimulates(p: Protocol, v: Versions, pc: Client, ev: Option<Event>, p': Protocol, v': Versions, pc': Client)
    requires ScanStep(p, v, pc, ev, p', v', pc')
    requires StoreStructure(p.store) && Knows(p.store, v, pc)
    requires pc.ChildWatched? || pc.ChildRead?
    ensures Commits(p, ev, p') && Knows(p'.store, v', pc')
    ensures ev.Some? ==> Touches(v, v', Written(ev.value))
    ensures ev == None ==> Touches(v, v', {})
  {
    ScanStable(p.store, v, p.store, v', pc.sc);
    assert IsDependent(p.store, pc.sc.x, pc.sc.todo[0]);
  }

  lemma ScanSimulates(p: Protocol, v: Versions, pc: Client, ev: Option<Event>, p': Protocol, v': Versions, pc': Client)
    requires ScanStep(p, v, pc, ev, p', v', pc')
    requires StoreStructure(p.store) && Knows(p.store, v, pc)
    ensures Commits(p, ev, p') && Knows(p'.store, v', pc')
    ensures ev.Some? ==> Touches(v, v', Written(ev.value))
    ensures ev == None ==> Touches(v, v', {})
  {
    if pc.Scanning? {
      ScanningSimulates(p, v, pc.sc, ev, p', v', pc');
    } else if pc.ParentRead? {
      ParentReadSimulates(p.store, v, pc.sc, pc.deps, pc.st, v');
    } else if pc.ChildWatched? || pc.ChildRead? {
      ChildSimulates(p, v, pc, ev, p', v', pc');
    } else {
      DependentsSimulates(p, v, pc, ev, p', v', pc');
    }
  }

  lemma DependentsReadKnown(
    s: Store, v: Versions, x: JobId, fin: bool, local: Option<JobStatus>, w: WatchSet, v': Versions)
    requires StoreStructure(s) && Knows(s, v, DependentsWatched(x, fin, local, w)) && Touches(v, v', {})
    ensures Knows(s, v', DependentsRead(x, fin, local, w, Members(s.dependents, x)))
  {
    UnchangedBefore(w, s, v, s, v');
    forall c | c in Members(s.dependents, x) ensures IsDependent(s, x, c) {
    }
  }

  // ---------- The whole system ----------

  /** The id an enqueuer is working on. */
  function Owned(pc: Client): set<JobId> {
    match pc
    case EnqueueCall(c, _, _) => {c}
    case OwnWatched(c, _, _, _) => {c}
    case ParentsWatched(c, _, _, _) => {c}
    case MustWait(c, _, _, _) => {c}
    case MayRun(c, _) => {c}
    case _ => {}
  }

  ghost predicate ClientsKnow(s: System) {
    forall i :: i in s.clients ==> Knows(s.proto.store, s.ver, s.clients[i]) && OwnsId(s.proto, s.clients[i])
  }

  ghost predicate IdsClaimed(s: System) {
    && s.proto.store.jobs.Keys + s.proto.cleared.Keys <= s.claimed
    && (forall i :: i in s.clients ==> Owned(s.clients[i]) <= s.claimed)
    && (forall i, j :: i in s.clients && j in s.clients && i != j ==> Owned(s.clients[i]) !! Owned(s.clients[j]))
  }

  ghost predicate SystemInvariant(s: System) {
    StoreStructure(s.proto.store) && Accounted(s.proto) && ClientsKnow(s) && IdsClaimed(s)
  }

  /** The one id an event can save or clear. */
  function EventIds(e: Event): set<JobId> {
    match e
    case ParkJob(c, _) => {c}
    case ClearJob(c, _) => {c}
    case PushCleared(c, _) => {c}
    case _ => {}
  }

  lemma OtherIdsKept(p: Protocol, e: Event, j: JobId)
    requires Enabled(p, e) && j !in EventIds(e)
    ensures var p' := Apply(p, e);
      (j in p'.store.jobs <==> j in p.store.jobs) && (j in p'.cleared <==> j in p.cleared)
  {
    match e
    case FinishJob(x, order) => FinishIsWoken(p.store, x, order);
    case Rescan(x, order, _) => WakeIsWoken(p.store, x, order);
    case _ =>
  }

  lemma OwnsIdStable(p: Protocol, e: Event, pc: Client)
    requires Enabled(p, e) && OwnsId(p, pc) && Owned(pc) !! EventIds(e)
    ensures OwnsId(Apply(p, e), pc)
  {
    if Owned(pc) != {} { OtherIdsKept(p, e, pc.c); }
  }

  lemma EnqueueOwns(p: Protocol, v: Versions, pc: Client, ev: Option<Event>, p': Protocol, v': Versions, pc': Client)
    requires EnqueueStep(p, v, pc, ev, p', v', pc') && OwnsId(p, pc)
    ensures OwnsId(p', pc') && Owned(pc') <= Owned(pc)
    ensures ev.Some? ==> EventIds(ev.value) == Owned(pc)
    ensures ev.Some? ==> !ev.value.FinishJob? && !ev.value.Rescan?
  {
  }

  lemma ScanOwns(p: Protocol, v: Versions, pc: Client, ev: Option<Event>, p': Protocol, v': Versions, pc': Client)
    requires ScanStep(p, v, pc, ev, p', v', pc')
    ensures Owned(pc) == Owned(pc') == {} && OwnsId(p', pc')
    ensures ev.Some? ==> EventIds(ev.value) == {}
  {
  }

  /** A step of one client commits its event and keeps what every client knows. */
  lemma ClientStepSimulates(s: System, i: nat, ev: Option<Event>, s': System)
    requires SystemInvariant(s) && ClientStep(s, i, ev, s')
    ensures Commits(s.proto, ev, s'.proto)
    ensures Knows(s'.proto.store, s'.ver, s'.clients[i]) && OwnsId(s'.proto, s'.clients[i])
    ensures Owned(s'.clients[i]) <= Owned(s.clients[i])
    ensures ev.Some? ==> EventIds(ev.value) <= Owned(s.clients[i]) && Touches(s.ver, s'.ver, Written(ev.value))
    ensures ev == None ==> Touches(s.ver, s'.ver, {})
  {
    if EnqueueStep(s.proto, s.ver, s.clients[i], ev, s'.proto, s'.ver, s'.clients[i]) {
      EnqueueSimulates(s.proto, s.ver, s.clients[i], ev, s'.proto, s'.ver, s'.clients[i]);
      EnqueueOwns(s.proto, s.ver, s.clients[i], ev, s'.proto, s'.ver, s'.clients[i]);
    } else {
      ScanSimulates(s.proto, s.ver, s.clients[i], ev, s'.proto, s'.ver, s'.clients[i]);
      ScanOwns(s.proto, s.ver, s.clients[i], ev, s'.proto, s'.ver, s'.clients[i]);
    }
  }

  lemma CommitRely(p: Protocol, v: Versions, ev: Option<Event>, p': Protocol, v': Versions)
    requires Commits(p, ev, p')
    requires ev.Some? ==> Touches(v, v', Written(ev.value))
    requires ev == None ==> Touches(v, v', {})
    ensures Rely(p.store, v, p'.store, v')
  {
    if ev.Some? { EventRely(p, ev.value, v, v'); }
  }

  lemma BystanderKnows(s: System, ev: Option<Event>, s': System, pc: Client)
    requires Commits(s.proto, ev, s'.proto) && Rely(s.proto.store, s.ver, s'.proto.store, s'.ver)
    requires Knows(s.proto.store, s.ver, pc) && OwnsId(s.proto, pc)
    requires ev.Some? ==> EventIds(ev.value) !! Owned(pc)
    ensures Knows(s'.proto.store, s'.ver, pc) && OwnsId(s'.proto, pc)
  {
    KnowsStable(s.proto.store, s.ver, s'.proto.store, s'.ver, pc);
    if ev.Some? { OwnsIdStable(s.proto, ev.value, pc); }
  }

  lemma CommitKeepsStructure(p: Protocol, ev: Option<Event>, p': Protocol)
    requires StoreStructure(p.store) && Accounted(p) && Commits(p, ev, p')
    ensures StoreStructure(p'.store) && Accounted(p')
  {
    if ev.Some? { StoreStructureKept(p, ev.value); AccountedKept(p, ev.value); }
  }

  lemma CommitKeepsClaims(p: Protocol, ev: Option<Event>, p': Protocol, claimed: set<JobId>)
    requires Commits(p, ev, p')
    requires p.store.jobs.Keys + p.cleared.Keys <= claimed
    requires ev.Some? ==> EventIds(ev.value) <= claimed
    ensures p'.store.jobs.Keys + p'.cleared.Keys <= claimed
  {
    if ev.Some? {
      forall j | j in p'.store.jobs.Keys + p'.cleared.Keys ensures j in claimed {
        if j !in EventIds(ev.value) { OtherIdsKept(p, ev.value, j); }
      }
    }
  }

  lemma ClientStepKeeps(s: System, i: nat, ev: Option<Event>, s': System)
    requires SystemInvariant(s) && ClientStep(s, i, ev, s')
    ensures SystemInvariant(s') && Commits(s.proto, ev, s'.proto)
  {
    ClientStepSimulates(s, i, ev, s');
    CommitRely(s.proto, s.ver, ev, s'.proto, s'.ver);
    CommitKeepsStructure(s.proto, ev, s'.proto);
    CommitKeepsClaims(s.proto, ev, s'.proto, s.claimed);
    forall j | j in s'.clients
      ensures Knows(s'.proto.store, s'.ver, s'.clients[j]) && OwnsId(s'.proto, s'.clients[j])
    {
      if j != i { BystanderKnows(s, ev, s', s.clients[j]); }
    }
  }

  lemma StartStepKeeps(s: System, i: nat, ev: Option<Event>, s': System)
    requires SystemInvariant(s) && StartStep(s, i, ev, s')
    ensures SystemInvariant(s') && Commits(s.proto, ev, s'.proto)
  {
  }

  lemma OutsideStepKeeps(s: System, ev: Option<Event>, s': System)
    requires SystemInvariant(s) && OutsideStep(s, ev, s')
    ensures SystemInvariant(s') && Commits(s.proto, ev, s'.proto)
  {
    CommitRely(s.proto, s.ver, ev, s'.proto, s'.ver);
    CommitKeepsStructure(s.proto, ev, s'.proto);
    CommitKeepsClaims(s.proto, ev, s'.proto, s.claimed);
    forall j | j in s'.clients
      ensures Knows(s'.proto.store, s'.ver, s'.clients[j]) && OwnsId(s'.proto, s'.clients[j])
    {
      BystanderKnows(s, ev, s', s.clients[j]);
    }
  }

  lemma NextKeeps(s: System, ev: Option<Event>, s': System)
    requires SystemInvariant(s) && Next(s, ev, s')
    ensures SystemInvariant(s') && Commits(s.proto, ev, s'.proto)
  {
    if i :| ClientStep(s, i, ev, s') {
      ClientStepKeeps(s, i, ev, s');
    } else if i :| StartStep(s, i, ev, s') {
      StartStepKeeps(s, i, ev, s');
    } else {
      OutsideStepKeeps(s, ev, s');
    }
  }

  /** Every interleaved run is a serial run of its transactions in commit order. */
  lemma {:induction false} RunsAreSerial(s: System, evs: seq<Option<Event>>, states: seq<System>)
    requires SystemInvariant(s) && Run(s, evs, states)
    ensures SystemInvariant(Last(s, states))
    ensures Serial(s.proto, Committed(evs), Last(s, states).proto)
    decreases |evs|
  {
    if evs != [] {
      NextKeeps(s, evs[0], states[0]);
      RunsAreSerial(states[0], evs[1..], states[1..]);
      assert Last(s, states) == Last(states[0], states[1..]);
      if evs[0].Some? {
        var es := Committed(evs);
        assert es[0] == evs[0].value && es[1..] == Committed(evs[1..]);
      } else {
        assert Committed(evs) == Committed(evs[1..]);
      }
    }
  }

  /** Optimistic transactions refine atomic ones, from the empty database on. */
  lemma InterleavedRefinesAtomic(evs: seq<Option<Event>>, states: seq<System>)
    requires Run(Boot, evs, states)
    ensures Serial(Start, Committed(evs), Last(Boot, states).proto)
  {
    RunsAreSerial(Boot, evs, states);
  }

  /** In an orderly interleaved run no wake-up is lost, none comes early and none
      comes twice, whatever the interleaving of commands and crashes. */
  lemma InterleavedRunsAreSafe(evs: seq<Option<Event>>, states: seq<System>)
    requires Run(Boot, evs, states) && OrderlyRun(Start, Committed(evs))
    ensures Invariant(Last(Boot, states).proto)
  {
    InterleavedRefinesAtomic(evs, states);
    SerialRunsKeepInvariant(Start, Committed(evs), Last(Boot, states).proto);
  }

  /** No lost wake-up: a DEFERRED job has a dependency that exists and has not
      finished, and is in the dependents set of every such dependency. */
  lemma NoWakeUpIsLost(evs: seq<Option<Event>>, states: seq<System>, c: JobId)
    requires Run(Boot, evs, states) && CleanRun(Start, Committed(evs))
    requires c in Last(Boot, states).proto.store.jobs
    requires Last(Boot, states).proto.store.jobs[c].status == Deferred
    ensures var s := Last(Boot, states).proto.store;
      && (exists d :: d in s.jobs[c].deps && d in s.jobs && s.jobs[d].status != Finished)
      && (forall d :: d in s.jobs[c].deps && d in s.jobs && s.jobs[d].status != Finished ==> c in Members(s.dependents, d))
  {
    InterleavedRefinesAtomic(evs, states);
    CleanRunsLoseNothing(Start, Committed(evs), Last(Boot, states).proto);
    assert HasPending(Last(Boot, states).proto.store, Last(Boot, states).proto.store.jobs[c].deps);
  }

  /** Exactly-once wake-up, and no early start, for every job whose dependencies
      all existed when it was enqueued. */
  lemma PushedExactlyOnce(evs: seq<Option<Event>>, states: seq<System>, c: JobId)
    requires Run(Boot, evs, states) && OrderlyRun(Start, Committed(evs))
    requires c in Last(Boot, states).proto.complete && c in Last(Boot, states).proto.store.jobs
    requires !Last(Boot, states).proto.store.jobs[c].allowFailures
    ensures var p := Last(Boot, states).proto;
      && Pushes(p, c) == (if forall d :: d in p.store.jobs[c].deps ==>
           d in p.store.jobs && p.store.jobs[d].status == Finished then 1 else 0)
      && (p.store.jobs[c].status == Deferred <==> Pushes(p, c) == 0)
  {
    InterleavedRunsAreSafe(evs, states);
    var p := Last(Boot, states).proto;
    assert OnceAllFinished(p.store, c, Pushes(p, c));
  }

  /** The same with no condition on what wake-ups pick, in runs that name existing
      dependencies, allow no failures and cancel no waiting job. */
  lemma PlainInterleavedRunsAreSafe(evs: seq<Option<Event>>, states: seq<System>)
    requires Run(Boot, evs, states) && PlainRun(Start, Committed(evs))
    ensures Invariant(Last(Boot, states).proto)
  {
    PlainRunsAreOrderly(Start, Committed(evs));
    InterleavedRunsAreSafe(evs, states);
  }

  lemma {:induction false} RunPrefix(s: System, evs: seq<Option<Event>>, states: seq<System>, k: nat)
    requires Run(s, evs, states) && k < |evs|
    ensures Run(s, evs[..k], states[..k]) && Next(Last(s, states[..k]), evs[k], states[k])
    decreases |evs|
  {
    if k > 0 {
      RunPrefix(states[0], evs[1..], states[1..], k - 1);
      assert evs[..k][1..] == evs[1..][..k - 1] && states[..k][1..] == states[1..][..k - 1];
      assert Last(s, states[..k]) == Last(states[0], states[1..][..k - 1]);
    } else {
      assert evs[..0] == [] && states[..0] == [];
    }
  }

  /** No early start: whenever a step of an interleaved run wakes a job, each of its
      dependencies has finished, is gone, is the one finishing in that transaction, or
      failed while failures are allowed. An abandoned parent counts as failed while its
      cleanup is under way, although Redis does not show that status yet. */
  lemma NoEarlyStart(evs: seq<Option<Event>>, states: seq<System>, k: nat, c: JobId, d: JobId)
    requires Run(Boot, evs, states) && k < |evs| && evs[k].Some?
    requires CleanRescan(Last(Boot, states[..k]).proto, evs[k].value)
    ensures var p, e := Last(Boot, states[..k]).proto, evs[k].value;
      c in Wakes(e) && c in p.store.jobs && d in p.store.jobs[c].deps ==>
        || d !in p.store.jobs || p.store.jobs[d].status == Finished
        || (e.FinishJob? && d == e.p)
        || (p.store.jobs[c].allowFailures && p.store.jobs[d].status == Failed)
        || (p.store.jobs[c].allowFailures && e.Rescan? && d == e.p && e.local == Some(Failed))
    ensures var p, e := Last(Boot, states[..k]).proto, evs[k].value;
      c in Wakes(e) ==>
        && c in p.store.jobs && e.p in p.store.jobs
        && ScanStatus(p, e) != Canceled && ScanStatus(p, e) != Stopped
        && (ScanStatus(p, e) == Failed ==> p.store.jobs[c].allowFailures)
  {
    RunPrefix(Boot, evs, states, k);
    RunsAreSerial(Boot, evs[..k], states[..k]);
    NextKeeps(Last(Boot, states[..k]), evs[k], states[k]);
    var p, e := Last(Boot, states[..k]).proto, evs[k].value;
    if c in Wakes(e) { WakesSpareTheOthers(p, e, c); }
    if c in Wakes(e) && c in p.store.jobs && d in p.store.jobs[c].deps {
      WakesAreNotEarly(p, e, c, d);
    }
  }

  /** On the path without EXEC, a job whose dependencies all existed when it was
      enqueued is pushed only when each of them has finished. */
  lemma FastPathIsNotEarly(evs: seq<Option<Event>>, states: seq<System>, k: nat, d: JobId)
    requires Run(Boot, evs, states) && k < |evs| && evs[k].Some? && evs[k].value.PushCleared?
    requires OrderlyRun(Start, Committed(evs[..k]))
    ensures var p, c := Last(Boot, states[..k]).proto, evs[k].value.c;
      c in p.cleared && c in p.complete && d in p.cleared[c].deps ==>
        d in p.store.jobs && p.store.jobs[d].status == Finished
  {
    RunPrefix(Boot, evs, states, k);
    InterleavedRunsAreSafe(evs[..k], states[..k]);
  }

  /** For a pass of any size that reaches EXEC untouched: of the dependents whose
      dependencies are met, exactly those are picked whose hash was not canceled when it
      was read. What that status is by then plays no part. */
  lemma PickedExactly(s: Store, v: Versions, sc: Scan, c: JobId)
    requires ScanKnown(s, v, sc) && sc.todo == [] && Unchanged(sc.w, v)
    requires c in sc.ids && c in s.jobs && MetFor(s, sc.x, StatusSeen(s, sc.x, sc.local), c)
    ensures c in sc.hs && (c in sc.chosen <==> sc.hs[c].status != Canceled)
  {
    assert Decided(s, v, sc, c);
  }
}
