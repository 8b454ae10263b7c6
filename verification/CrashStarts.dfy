/** How often a job is started when clients die between commands. A delayed retry or
    repeat reaches the scheduled registry before the transaction that counts it, so the
    counters bound the starts only together with the ZADDs that were never followed by
    their transaction. */
module CrashStarts {
  import opened Common
  import opened CrashModel

  /** Times a job may still be put back, when no returned Retry asks for more than m. */
  function Budget(c: Counters, m: nat): nat {
    c.retries + c.repeats + if c.returned < m then m - c.returned else 0
  }

  predicate WithinLimit(why: Reason, m: nat) {
    why.Returned? ==> why.max <= m
  }

  lemma UsedBudget(c: Counters, why: Reason, m: nat)
    requires Grants(c, why) && WithinLimit(why, m)
    ensures Budget(Used(c, why), m) + 1 == Budget(c, m)
  {
  }

  // ---------- Who has a copy of a job that it may still save ----------

  function First(todo: seq<JobId>): set<JobId> {
    if todo == [] then {} else {todo[0]}
  }

  function Held(pc: Client): set<JobId> {
    match pc
    case Prepared(j, _) => {j}
    case Running(j, _) => {j}
    case Marked(j, _, _) => {j}
    case Added(j, _, _) => {j}
    case Draining(ids, live) => ToSet(ids) * live
    case Sweeping(_, _, pipe) => PutBack(pipe)
    case SweepFetched(_, todo, pipe) => PutBack(pipe) + First(todo)
    case SweepMarked(_, todo, pipe) => PutBack(pipe) + First(todo)
    case Stuck(j) => {j}
    case StuckMarked(j) => {j}
    case StuckAdded(j) => {j}
    case _ => {}
  }

  /** The copy has been counted down for a transaction still to come. */
  predicate Counted(pc: Client, k: JobId) {
    match pc
    case Marked(j, _, _) => j == k
    case Added(j, _, _) => j == k
    case Sweeping(_, _, pipe) => k in PutBack(pipe)
    case SweepFetched(_, _, pipe) => k in PutBack(pipe)
    case SweepMarked(_, todo, pipe) => k in PutBack(pipe) + First(todo)
    case StuckMarked(j) => j == k
    case StuckAdded(j) => j == k
    case _ => false
  }

  /** The jobs whose hashes a step fetches for saving them later. */
  ghost function Fetches(s: System, i: ClientId, a: Action): set<JobId>
    requires Possible(s, i, a)
  {
    match a
    case PrepareExecution(_) => {s.clients[i].j}
    case DrainRead(ids) => ToSet(ids) * s.r.jobs.Keys
    case SweepFetch => {s.clients[i].todo[0]}
    case StuckPick(j) => {j}
    case _ => {}
  }

  /** Nobody fetches the job while a client has a copy of it in hand. */
  ghost predicate OneAtATime(s: System, i: ClientId, a: Action, k: JobId)
    requires Possible(s, i, a)
  {
    k in Fetches(s, i, a) ==> forall l :: l in s.clients ==> k !in Held(s.clients[l])
  }

  ghost predicate Limited(s: System, i: ClientId, a: Action, k: JobId, m: nat)
    requires Possible(s, i, a)
  {
    (a.RetryNow? || a.RetryMark?) && s.clients[i].j == k ==> WithinLimit(a.why, m)
  }

  /** How many items of the pipeline put the job back. */
  function Puts(pipe: seq<PipeItem>, k: JobId): nat {
    if pipe == [] then 0 else (if pipe[0].job == k && !pipe[0].verdict.Fails? then 1 else 0) + Puts(pipe[1..], k)
  }

  /** How many of them at once. */
  function Requeued(pipe: seq<PipeItem>, k: JobId): nat {
    if pipe == [] then 0 else (if pipe[0].job == k && pipe[0].verdict.Requeues? then 1 else 0) + Requeued(pipe[1..], k)
  }

  lemma {:induction false} PutsPositive(pipe: seq<PipeItem>, k: JobId)
    ensures Puts(pipe, k) > 0 <==> k in PutBack(pipe)
    ensures Requeued(pipe, k) <= Puts(pipe, k)
  {
    if pipe != [] {
      PutsPositive(pipe[1..], k);
      assert pipe == [pipe[0]] + pipe[1..];
    }
  }

  lemma {:induction false} PutsSnoc(pipe: seq<PipeItem>, it: PipeItem, k: JobId)
    ensures Puts(pipe + [it], k) == Puts(pipe, k) + if it.job == k && !it.verdict.Fails? then 1 else 0
    ensures PutBack(pipe + [it]) == PutBack(pipe) + if it.verdict.Fails? then {} else {it.job}
  {
    if pipe != [] {
      assert (pipe + [it])[1..] == pipe[1..] + [it];
      PutsSnoc(pipe[1..], it, k);
    }
  }

  /** What a client's variables say about the job. */
  ghost predicate Tidy(pc: Client, k: JobId) {
    match pc
    case Draining(ids, live) => NoDup(ids)
    case Sweeping(_, _, pipe) => Puts(pipe, k) <= 1
    case SweepFetched(_, todo, pipe) => Puts(pipe, k) <= 1 && !(k in First(todo) && k in PutBack(pipe))
    case SweepMarked(_, todo, pipe) => Puts(pipe, k) <= 1 && !(k in First(todo) && k in PutBack(pipe))
    case _ => true
  }

  /** A copy in hand is the saved one, but for what has been counted already. */
  ghost predicate CopyFits(s: System, i: ClientId, k: JobId, m: nat)
    requires i in s.clients
  {
    k in Held(s.clients[i]) ==>
      Budget(Copy(s, i, k), m) + (if Counted(s.clients[i], k) then 1 else 0) == Budget(Left(s.r, k), m)
  }

  predicate AtWork(pc: Client, k: JobId) {
    (pc.Prepared? || pc.Running? || pc.Marked? || pc.Added?) && pc.j == k
  }

  /** So is the worker's copy behind its work horse. */
  ghost predicate ParentFits(s: System, i: ClientId, k: JobId, m: nat)
    requires i in s.clients
  {
    AtWork(s.clients[i], k) && i in s.parents ==>
      s.parents[i].j == k && Budget(s.parents[i].copy, m) == Budget(Left(s.r, k), m)
  }

  ghost predicate OneHolder(s: System, k: JobId) {
    forall i, l :: i in s.clients && l in s.clients && k in Held(s.clients[i]) && k in Held(s.clients[l]) ==> i == l
  }

  ghost predicate InOneHand(s: System, k: JobId, m: nat) {
    && OneHolder(s, k)
    && forall i :: i in s.clients ==> CopyFits(s, i, k, m) && ParentFits(s, i, k, m) && Tidy(s.clients[i], k)
  }

  // ---------- That is kept ----------

  /** The client that works on a copy holds it, and holders work on saved jobs. */
  lemma HeldIsSaved(s: System, i: ClientId, k: JobId)
    requires Support(s) && i in s.clients && k in Held(s.clients[i])
    ensures k in s.r.jobs && k in s.claimed
  {
    var pc := s.clients[i];
    assert LocalOk(s.r, s.claimed, pc);
    OwnedJobSaved(s, i);
    if (pc.SweepFetched? || pc.SweepMarked?) && k in First(pc.todo) { SweepTodoSaved(s, i, k); }
  }

  /** Whose counters a step saves: those of the copies it holds, or of a new job. */
  lemma SavesHeld(s: System, i: ClientId, a: Action, k: JobId)
    requires Support(s) && Possible(s, i, a) && k in SavedLeft(s, i, a)
    ensures k in Held(s.clients[i]) || k !in s.r.jobs
    ensures k !in Held(NextClient(s, i, a))
  {
    assert LocalOk(s.r, s.claimed, s.clients[i]);
  }

  lemma LeftAfter(s: System, i: ClientId, a: Action, k: JobId)
    requires Possible(s, i, a)
    ensures Left(Next(s, i, a).r, k) == if k in SavedLeft(s, i, a) then SavedLeft(s, i, a)[k] else Left(s.r, k)
  {
  }

  /** Where a client gets a job from that it has in hand after its step. */
  lemma HeldAfter(s: System, i: ClientId, a: Action, k: JobId)
    requires Possible(s, i, a) && (a.HorseDies? ==> !s.clients[i].Idle?) && k in Held(NextClient(s, i, a))
    ensures k in Held(s.clients[i]) || k in Fetches(s, i, a)
  {
    var pc := s.clients[i];
    if a.SweepDecide? { PutsSnoc(pc.pipe, PipeItem(pc.todo[0], a.verdict), k); }
    else if a.SweepAdd? { PutsSnoc(pc.pipe, PipeItem(pc.todo[0], Reschedules), k); }
  }

  lemma OneHolderKept(s: System, i: ClientId, a: Action, k: JobId)
    requires Support(s) && OneHolder(s, k) && Enabled(s, i, a) && OneAtATime(s, i, a, k)
    ensures OneHolder(Next(s, i, a), k)
  {
    var t := Next(s, i, a);
    assert t.clients == s.clients[i := NextClient(s, i, a)];
    if k in Held(NextClient(s, i, a)) { HeldAfter(s, i, a, k); }
  }

  lemma OthersFit(s: System, i: ClientId, a: Action, k: JobId, m: nat, l: ClientId)
    requires Support(s) && InOneHand(s, k, m) && Enabled(s, i, a) && l in s.clients && l != i
    ensures var t := Next(s, i, a);
      l in t.clients && CopyFits(t, l, k, m) && ParentFits(t, l, k, m) && Tidy(t.clients[l], k)
  {
    OthersStay(s, i, a, l);
    assert CopyFits(s, l, k, m) && ParentFits(s, l, k, m);
    if k in Held(s.clients[l]) { KeptWhileHeld(s, i, a, k, l); }
  }

  lemma OthersStay(s: System, i: ClientId, a: Action, l: ClientId)
    requires Possible(s, i, a) && l in s.clients && l != i
    ensures var t := Next(s, i, a);
      && l in t.clients && t.clients[l] == s.clients[l] && Copies(t, l) == Copies(s, l)
      && (l in t.parents <==> l in s.parents) && (l in s.parents ==> t.parents[l] == s.parents[l])
  {
  }

  lemma KeptWhileHeld(s: System, i: ClientId, a: Action, k: JobId, l: ClientId)
    requires Support(s) && OneHolder(s, k) && Enabled(s, i, a)
    requires l in s.clients && l != i && k in Held(s.clients[l])
    ensures Left(Next(s, i, a).r, k) == Left(s.r, k)
  {
    LeftAfter(s, i, a, k);
    HeldIsSaved(s, l, k);
    if k in SavedLeft(s, i, a) { SavesHeld(s, i, a, k); }
  }

  lemma OwnTidy(s: System, i: ClientId, a: Action, k: JobId)
    requires Possible(s, i, a) && Tidy(s.clients[i], k) && OneAtATime(s, i, a, k)
    ensures Tidy(NextClient(s, i, a), k)
  {
    var pc := s.clients[i];
    if a.SweepDecide? {
      PutsPositive(pc.pipe, k);
      PutsSnoc(pc.pipe, PipeItem(pc.todo[0], a.verdict), k);
    } else if a.SweepAdd? {
      PutsPositive(pc.pipe, k);
      PutsSnoc(pc.pipe, PipeItem(pc.todo[0], Reschedules), k);
    }
  }

  /** The acting client's own copy of what it has in hand afterwards. */
  lemma OwnCopyFits(s: System, i: ClientId, a: Action, k: JobId, m: nat)
    requires Support(s) && InOneHand(s, k, m) && Enabled(s, i, a)
    requires OneAtATime(s, i, a, k) && Limited(s, i, a, k, m)
    ensures CopyFits(Next(s, i, a), i, k, m)
  {
    var t, pc := Next(s, i, a), s.clients[i];
    assert t.clients[i] == NextClient(s, i, a) && Copies(t, i) == NextCopies(s, i, a);
    assert CopyFits(s, i, k, m) && ParentFits(s, i, k, m) && Tidy(pc, k);
    LeftAfter(s, i, a, k);
    if k in Held(NextClient(s, i, a)) {
      if k in SavedLeft(s, i, a) { SavesHeld(s, i, a, k); }
      HeldAfter(s, i, a, k);
      if a.SweepFetch? || a.SweepDecide? || a.SweepMark? || a.SweepAdd? {
        SweepCopyFits(s, i, a, k, m);
      } else {
        OtherCopyFits(s, i, a, k, m);
      }
    }
  }

  ghost predicate Fits(pc: Client, copies: map<JobId, Counters>, left: Counters, k: JobId, m: nat) {
    var c := if k in copies then copies[k] else Counters(0, 0, 0);
    Budget(c, m) + (if Counted(pc, k) then 1 else 0) == Budget(left, m)
  }

  lemma SweepCopyFits(s: System, i: ClientId, a: Action, k: JobId, m: nat)
    requires Possible(s, i, a) && (a.SweepFetch? || a.SweepDecide? || a.SweepMark? || a.SweepAdd?)
    requires CopyFits(s, i, k, m) && Tidy(s.clients[i], k) && OneAtATime(s, i, a, k)
    requires k in Held(NextClient(s, i, a))
    ensures Fits(NextClient(s, i, a), NextCopies(s, i, a), Left(s.r, k), k, m)
  {
    var pc := s.clients[i];
    if a.SweepDecide? {
      PutsSnoc(pc.pipe, PipeItem(pc.todo[0], a.verdict), k);
    } else if a.SweepAdd? {
      PutsSnoc(pc.pipe, PipeItem(pc.todo[0], Reschedules), k);
    }
  }

  lemma OtherCopyFits(s: System, i: ClientId, a: Action, k: JobId, m: nat)
    requires Enabled(s, i, a) && !a.SweepFetch? && !a.SweepDecide? && !a.SweepMark? && !a.SweepAdd?
    requires CopyFits(s, i, k, m) && ParentFits(s, i, k, m) && OneAtATime(s, i, a, k) && Limited(s, i, a, k, m)
    requires k in Held(NextClient(s, i, a))
    ensures Fits(NextClient(s, i, a), NextCopies(s, i, a), Left(s.r, k), k, m)
  {
  }

  lemma OwnParentFits(s: System, i: ClientId, a: Action, k: JobId, m: nat)
    requires Support(s) && InOneHand(s, k, m) && Enabled(s, i, a)
    ensures ParentFits(Next(s, i, a), i, k, m)
  {
    var t, pc := Next(s, i, a), s.clients[i];
    assert t.clients[i] == NextClient(s, i, a) && t.parents == NextParents(s, i, a);
    assert ParentFits(s, i, k, m);
    LeftAfter(s, i, a, k);
    if AtWork(NextClient(s, i, a), k) && k in SavedLeft(s, i, a) { SavesHeld(s, i, a, k); }
  }

  lemma InOneHandKept(s: System, i: ClientId, a: Action, k: JobId, m: nat)
    requires Support(s) && InOneHand(s, k, m) && Enabled(s, i, a)
    requires OneAtATime(s, i, a, k) && Limited(s, i, a, k, m)
    ensures InOneHand(Next(s, i, a), k, m)
  {
    var t := Next(s, i, a);
    assert t.clients == s.clients[i := NextClient(s, i, a)];
    OneHolderKept(s, i, a, k);
    forall l | l in t.clients ensures CopyFits(t, l, k, m) && ParentFits(t, l, k, m) && Tidy(t.clients[l], k) {
      if l == i {
        OwnCopyFits(s, i, a, k, m);
        OwnParentFits(s, i, a, k, m);
        OwnTidy(s, i, a, k);
      } else {
        OthersFit(s, i, a, k, m, l);
      }
    }
  }

  // ---------- What a step does for the job ----------

  predicate IsReady(pc: Client, k: JobId) {
    (pc.Dequeued? || pc.Prepared? || ((pc.Marked? || pc.Added?) && pc.early)) && pc.j == k
  }

  /** A worker has taken the job and may still start it. */
  function ReadySet(clients: map<ClientId, Client>, k: JobId): set<ClientId> {
    set i | i in clients && IsReady(clients[i], k)
  }

  /** A scheduler is about to push the job. */
  ghost predicate BeingDrained(s: System, k: JobId) {
    exists i :: i in s.clients && s.clients[i].Draining? && k in Held(s.clients[i])
  }

  ghost predicate Due(s: System, k: JobId) {
    k in s.r.jobs && (k in s.r.scheduled || BeingDrained(s, k))
  }

  function One(b: bool): nat {
    if b then 1 else 0
  }

  /** Starts still possible without another ZADD: the budget, and one for each place
      where the job waits. */
  ghost function Potential(s: System, k: JobId, m: nat): nat {
    multiset(s.r.queue)[k] + One(k in s.r.deferred) + One(Due(s, k)) + |ReadySet(s.clients, k)|
    + if k in s.r.jobs then Budget(Left(s.r, k), m) else 0
  }

  ghost predicate Starts(s: System, i: ClientId, a: Action, k: JobId)
    requires Possible(s, i, a)
  {
    a.PrepareJob? && s.clients[i].j == k
  }

  /** The ZADD of a delayed retry or repeat, and the transaction that counts it. */
  ghost predicate Adds(s: System, i: ClientId, a: Action, k: JobId)
    requires Possible(s, i, a)
  {
    !a.ScheduleAdd? && k in Zadded(s, i, a)
  }

  ghost predicate Commits(s: System, i: ClientId, a: Action, k: JobId)
    requires Possible(s, i, a)
  {
    || ((a.CommitSchedule? || a.StuckCommit?) && s.clients[i].j == k)
    || (a.SweepExec? && k in Rescheduled(s.clients[i].pipe))
  }

  /** The counters the job is created with, if it is. */
  ghost function NewCounters(s: System, i: ClientId, a: Action, k: JobId): Option<Counters>
    requires Possible(s, i, a)
  {
    if (a.EnqueueNew? || a.ParkNew?) && a.j == k then Some(a.counters)
    else if a.ScheduleSave? && s.clients[i].j == k then Some(a.counters)
    else None
  }

  /** The starts a step grants: for a creation and a manual requeue. */
  ghost function Granted(s: System, i: ClientId, a: Action, k: JobId, m: nat): nat
    requires Possible(s, i, a)
  {
    match NewCounters(s, i, a, k)
    case Some(c) => 1 + Budget(c, m)
    case None => One(a.Requeue? && a.j == k)
  }

  /** Pushes of the job onto the queue. */
  ghost function Pushed(s: System, i: ClientId, a: Action, k: JobId): nat
    requires Possible(s, i, a)
  {
    var pc := s.clients[i];
    match a
    case EnqueueNew(j, _, _) => One(j == k)
    case Wake(j, _) => One(j == k)
    case Requeue(j, _) => One(j == k)
    case RepeatNow => One(pc.j == k)
    case RetryNow(_, _) => One(pc.j == k)
    case StuckResolve(v) => One(v.Requeues? && pc.j == k)
    case DrainExec(_) => One(k in Held(pc))
    case SweepExec => Requeued(pc.pipe, k)
    case _ => 0
  }

  // ---------- How the places change ----------

  lemma {:induction false} RunPipePushes(r: Redis, pipe: seq<PipeItem>, k: JobId)
    ensures multiset(RunPipe(r, pipe).queue)[k] == multiset(r.queue)[k] + Requeued(pipe, k)
    decreases |pipe|
  {
    if pipe != [] {
      var t := RunItem(r, pipe[0]);
      assert multiset(t.queue)[k] == multiset(r.queue)[k] + One(pipe[0].verdict.Requeues? && pipe[0].job == k);
      RunPipePushes(t, pipe[1..], k);
    }
  }

  lemma {:induction false} PushAllPushes(xs: seq<JobId>, ids: seq<JobId>, live: set<JobId>, fronts: set<JobId>, k: JobId)
    requires NoDup(ids)
    ensures multiset(PushAll(xs, ids, live, fronts))[k] == multiset(xs)[k] + One(k in ids && k in live)
    decreases |ids|
  {
    if ids != [] {
      var ys := if ids[0] in live then Push(xs, ids[0], ids[0] in fronts) else xs;
      NoDupSplit(ids, 0);
      PushAllPushes(ys, ids[1..], live, fronts, k);
      assert k in ids <==> k == ids[0] || k in ids[1..];
    }
  }

  lemma QueueAfter(s: System, i: ClientId, a: Action, k: JobId)
    requires Possible(s, i, a) && Tidy(s.clients[i], k)
    ensures multiset(NextRedis(s, i, a).queue)[k] + One(a.Dequeue? && s.r.queue[0] == k)
      <= multiset(s.r.queue)[k] + Pushed(s, i, a, k)
  {
    var pc := s.clients[i];
    if a.Dequeue? {
      assert s.r.queue == [s.r.queue[0]] + s.r.queue[1..];
    } else if a.CancelExec? {
      RemoveFirstCount(s.r.queue, pc.j);
    } else if a.SweepExec? {
      RunPipePushes(s.r, pc.pipe, k);
    } else if a.DrainExec? {
      PushAllPushes(s.r.queue, pc.ids, pc.live, a.fronts, k);
    } else {
      OtherQueueAfter(s, i, a, k);
    }
  }

  lemma OtherQueueAfter(s: System, i: ClientId, a: Action, k: JobId)
    requires Possible(s, i, a) && !a.Dequeue? && !a.CancelExec? && !a.SweepExec? && !a.DrainExec?
    ensures multiset(NextRedis(s, i, a).queue)[k] == multiset(s.r.queue)[k] + Pushed(s, i, a, k)
  {
    if a.EnqueueNew? || a.Wake? || a.Requeue? { JobPushed(s.r.queue, a.j, a.front, k); }
    else if a.RepeatNow? { JobPushed(s.r.queue, s.clients[i].j, false, k); }
    else if a.RetryNow? { JobPushed(s.r.queue, s.clients[i].j, a.front, k); }
    else if a.StuckResolve? { StuckPushes(s, i, a, k); }
    else { QueueSame(s, i, a, k); }
  }

  lemma JobPushed(xs: seq<JobId>, j: JobId, front: bool, k: JobId)
    ensures multiset(Push(xs, j, front))[k] == multiset(xs)[k] + One(j == k)
  {
  }

  lemma StuckPushes(s: System, i: ClientId, a: Action, k: JobId)
    requires Possible(s, i, a) && a.StuckResolve?
    ensures multiset(NextRedis(s, i, a).queue)[k] == multiset(s.r.queue)[k] + Pushed(s, i, a, k)
  {
    if a.verdict.Requeues? { JobPushed(s.r.queue, s.clients[i].j, a.verdict.front, k); }
  }

  lemma QueueSame(s: System, i: ClientId, a: Action, k: JobId)
    requires Possible(s, i, a) && !a.Dequeue? && !a.CancelExec? && !a.SweepExec? && !a.DrainExec?
    requires !a.EnqueueNew? && !a.Wake? && !a.Requeue? && !a.RepeatNow? && !a.RetryNow? && !a.StuckResolve?
    ensures NextRedis(s, i, a).queue == s.r.queue && Pushed(s, i, a, k) == 0
  {
  }

  lemma DeferredAfter(s: System, i: ClientId, a: Action, k: JobId)
    requires Possible(s, i, a)
    ensures k in NextRedis(s, i, a).deferred ==> (k in s.r.deferred && !(a.Wake? && a.j == k)) || (a.ParkNew? && a.j == k)
    ensures a.Wake? && a.j == k ==> k in s.r.deferred
  {
    if a.SweepExec? {
      RunPipeEffect(s.r, s.clients[i].pipe);
    } else if !a.ParkNew? && !a.Wake? {
      DeferredStays(s, i, a, k);
    }
  }

  lemma DeferredStays(s: System, i: ClientId, a: Action, k: JobId)
    requires Possible(s, i, a) && !a.SweepExec? && !a.ParkNew? && !a.Wake?
    ensures k in NextRedis(s, i, a).deferred ==> k in s.r.deferred
  {
  }

  lemma ReadyStep(s: System, i: ClientId, a: Action, k: JobId)
    requires Possible(s, i, a) && (a.HorseDies? ==> !s.clients[i].Idle?)
    ensures One(IsReady(NextClient(s, i, a), k)) + One(Starts(s, i, a, k))
      <= One(IsReady(s.clients[i], k)) + One(a.Dequeue? && s.r.queue[0] == k)
  {
  }

  lemma ReadyUpdate(clients: map<ClientId, Client>, i: ClientId, pc: Client, k: JobId)
    requires i in clients
    ensures |ReadySet(clients[i := pc], k)| + One(IsReady(clients[i], k)) == |ReadySet(clients, k)| + One(IsReady(pc, k))
  {
    SameButOne(ReadySet(clients, k), ReadySet(clients[i := pc], k), i);
  }

  lemma ReadyAfter(s: System, i: ClientId, a: Action, k: JobId)
    requires Possible(s, i, a) && (a.HorseDies? ==> !s.clients[i].Idle?)
    ensures |ReadySet(Next(s, i, a).clients, k)| + One(Starts(s, i, a, k))
      <= |ReadySet(s.clients, k)| + One(a.Dequeue? && s.r.queue[0] == k)
  {
    ReadyStep(s, i, a, k);
    ReadyUpdate(s.clients, i, NextClient(s, i, a), k);
  }

  lemma StillScheduled(s: System, i: ClientId, a: Action, k: JobId)
    requires Support(s) && Enabled(s, i, a)
    requires k in NextRedis(s, i, a).scheduled && k in NextRedis(s, i, a).jobs && !Adds(s, i, a, k)
    requires !(a.ScheduleSave? && s.clients[i].j == k)
    ensures k in s.r.jobs && k in s.r.scheduled && !(a.DrainExec? && k in Held(s.clients[i]))
  {
    ScheduledChange(s, i, a);
    JobsChange(s, i, a);
  }

  lemma StillDrained(s: System, i: ClientId, a: Action, k: JobId)
    requires Support(s) && OneHolder(s, k) && Enabled(s, i, a) && BeingDrained(Next(s, i, a), k)
    ensures Due(s, k) && !(a.DrainExec? && k in Held(s.clients[i]))
  {
    var t := Next(s, i, a);
    assert t.clients == s.clients[i := NextClient(s, i, a)];
    var l :| l in t.clients && t.clients[l].Draining? && k in Held(t.clients[l]);
    if l == i {
      assert a.DrainRead? && k in s.r.scheduled;
    } else {
      HeldIsSaved(s, l, k);
      assert BeingDrained(s, k);
    }
  }

  lemma DueAfter(s: System, i: ClientId, a: Action, k: JobId)
    requires Support(s) && OneHolder(s, k) && Enabled(s, i, a)
    ensures Due(Next(s, i, a), k) ==>
      || (Due(s, k) && !(a.DrainExec? && k in Held(s.clients[i])))
      || Adds(s, i, a, k)
      || (a.ScheduleSave? && s.clients[i].j == k)
  {
    if Due(Next(s, i, a), k) {
      if BeingDrained(Next(s, i, a), k) { StillDrained(s, i, a, k); }
      else if !Adds(s, i, a, k) && !(a.ScheduleSave? && s.clients[i].j == k) { StillScheduled(s, i, a, k); }
    }
  }

  lemma DueBefore(s: System, i: ClientId, a: Action, k: JobId)
    requires Support(s) && Enabled(s, i, a)
    ensures a.DrainExec? && k in Held(s.clients[i]) ==> Due(s, k)
    ensures a.ScheduleSave? && s.clients[i].j == k ==> !Due(s, k) && k !in s.r.jobs
  {
    assert LocalOk(s.r, s.claimed, s.clients[i]);
    if a.DrainExec? && k in Held(s.clients[i]) { assert BeingDrained(s, k); }
  }

  /** What a step takes from the budget: a put-back that is pushed or committed. */
  ghost function Spent(s: System, i: ClientId, a: Action, k: JobId): nat
    requires Possible(s, i, a)
  {
    if a.RepeatNow? || a.RetryNow? || a.CommitSchedule? || a.StuckCommit? then One(s.clients[i].j == k)
    else if a.StuckResolve? then One(a.verdict.Requeues? && s.clients[i].j == k)
    else if a.SweepExec? then One(k in PutBack(s.clients[i].pipe))
    else 0
  }

  /** The budget in the hash goes down by just that. */
  lemma BudgetAfter(s: System, i: ClientId, a: Action, k: JobId, m: nat)
    requires Support(s) && InOneHand(s, k, m) && Enabled(s, i, a) && Limited(s, i, a, k, m)
    requires k in s.r.jobs
    ensures Budget(Left(Next(s, i, a).r, k), m) + Spent(s, i, a, k) == Budget(Left(s.r, k), m)
  {
    assert CopyFits(s, i, k, m);
    CreationIsFirst(s, i, a, k);
    LeftAfter(s, i, a, k);
    if k in SavedLeft(s, i, a) { SavedBudget(s, i, a, k, m); } else { NotSpent(s, i, a, k); }
  }

  lemma NotSpent(s: System, i: ClientId, a: Action, k: JobId)
    requires Possible(s, i, a) && k !in SavedLeft(s, i, a)
    ensures Spent(s, i, a, k) == 0
  {
  }

  lemma SavedBudget(s: System, i: ClientId, a: Action, k: JobId, m: nat)
    requires Possible(s, i, a) && CopyFits(s, i, k, m) && Limited(s, i, a, k, m)
    requires k in SavedLeft(s, i, a) && NewCounters(s, i, a, k).None?
    ensures Budget(SavedLeft(s, i, a)[k], m) + Spent(s, i, a, k) == Budget(Left(s.r, k), m)
  {
  }

  /** A step that creates the job finds it nowhere but, for a while, in the scheduled
      registry. */
  lemma CreationIsFirst(s: System, i: ClientId, a: Action, k: JobId)
    requires Support(s) && Enabled(s, i, a)
    ensures NewCounters(s, i, a, k).Some? ==> k !in s.r.jobs && Left(Next(s, i, a).r, k) == NewCounters(s, i, a, k).value
    ensures NewCounters(s, i, a, k).Some? <==> k !in s.r.jobs && k in Next(s, i, a).r.jobs
  {
    JobsChange(s, i, a);
    assert LocalOk(s.r, s.claimed, s.clients[i]);
    LeftAfter(s, i, a, k);
  }

  // ---------- The balance of one step ----------

  /** The places of the job, and where pushes and ZADDs come from. */
  lemma Balance(s: System, i: ClientId, a: Action, k: JobId, m: nat)
    requires Possible(s, i, a) && Tidy(s.clients[i], k)
    ensures Pushed(s, i, a, k) + One(a.ParkNew? && a.j == k) + One(a.ScheduleSave? && s.clients[i].j == k)
        + One(Commits(s, i, a, k)) + (if NewCounters(s, i, a, k).Some? then Budget(NewCounters(s, i, a, k).value, m) else 0)
      <= Granted(s, i, a, k, m) + Spent(s, i, a, k) + One(a.Wake? && a.j == k) + One(a.DrainExec? && k in Held(s.clients[i]))
  {
    if a.SweepExec? { PipeBalance(s.clients[i].pipe, k); }
  }

  lemma {:induction false} PipeBalance(pipe: seq<PipeItem>, k: JobId)
    requires Puts(pipe, k) <= 1
    ensures Requeued(pipe, k) + One(k in Rescheduled(pipe)) <= One(k in PutBack(pipe))
    ensures Puts(pipe, k) == One(k in PutBack(pipe))
  {
    if pipe != [] {
      PipeBalance(pipe[1..], k);
      PipeSplit(pipe);
      assert pipe == [pipe[0]] + pipe[1..];
    }
  }

  /** Starts and counted put-backs are paid for by what was granted, by the budget, or by
      a ZADD. */
  lemma StepPays(s: System, i: ClientId, a: Action, k: JobId, m: nat)
    requires Support(s) && InOneHand(s, k, m) && Enabled(s, i, a) && Limited(s, i, a, k, m)
    ensures Potential(Next(s, i, a), k, m) + One(Starts(s, i, a, k)) + One(Commits(s, i, a, k))
      <= Potential(s, k, m) + Granted(s, i, a, k, m) + One(Adds(s, i, a, k))
  {
    assert Tidy(s.clients[i], k);
    QueueAfter(s, i, a, k);
    DeferredAfter(s, i, a, k);
    ReadyAfter(s, i, a, k);
    DueAfter(s, i, a, k);
    DueBefore(s, i, a, k);
    CreationIsFirst(s, i, a, k);
    Balance(s, i, a, k, m);
    BudgetPays(s, i, a, k, m);
  }

  lemma BudgetPays(s: System, i: ClientId, a: Action, k: JobId, m: nat)
    requires Support(s) && InOneHand(s, k, m) && Enabled(s, i, a) && Limited(s, i, a, k, m)
    ensures (if k in Next(s, i, a).r.jobs then Budget(Left(Next(s, i, a).r, k), m) else 0) + Spent(s, i, a, k)
      == (if k in s.r.jobs then Budget(Left(s.r, k), m) else 0)
       + if NewCounters(s, i, a, k).Some? then Budget(NewCounters(s, i, a, k).value, m) else 0
  {
    CreationIsFirst(s, i, a, k);
    if k in s.r.jobs {
      JobsChange(s, i, a);
      BudgetAfter(s, i, a, k, m);
    } else {
      UnsavedNotSpent(s, i, a, k);
    }
  }

  lemma UnsavedNotSpent(s: System, i: ClientId, a: Action, k: JobId)
    requires Support(s) && Possible(s, i, a) && k !in s.r.jobs
    ensures Spent(s, i, a, k) == 0
  {
    SpentIsHeld(s, i, a, k);
    if k in Held(s.clients[i]) { HeldIsSaved(s, i, k); }
  }

  lemma SpentIsHeld(s: System, i: ClientId, a: Action, k: JobId)
    requires Possible(s, i, a)
    ensures Spent(s, i, a, k) > 0 ==> k in Held(s.clients[i])
  {
  }

  // ---------- ZADDs without their transaction ----------

  /** The client has sent the ZADD of a delayed retry or repeat of the job, and not yet
      the transaction that counts it. */
  predicate Waits(pc: Client, k: JobId) {
    match pc
    case Added(j, _, _) => j == k
    case Sweeping(_, _, pipe) => k in Rescheduled(pipe)
    case SweepFetched(_, _, pipe) => k in Rescheduled(pipe)
    case SweepMarked(_, _, pipe) => k in Rescheduled(pipe)
    case StuckAdded(j) => j == k
    case _ => false
  }

  function Waiting(clients: map<ClientId, Client>, k: JobId): set<ClientId> {
    set i | i in clients && Waits(clients[i], k)
  }

  /** It dies at that point, or its work horse does. */
  ghost predicate DiesWaiting(s: System, i: ClientId, a: Action, k: JobId)
    requires Possible(s, i, a)
  {
    (a.Crash? || a.HorseDies?) && Waits(s.clients[i], k)
  }

  lemma WaitingUpdate(clients: map<ClientId, Client>, i: ClientId, pc: Client, k: JobId)
    requires i in clients
    ensures |Waiting(clients[i := pc], k)| + One(Waits(clients[i], k)) == |Waiting(clients, k)| + One(Waits(pc, k))
  {
    SameButOne(Waiting(clients, k), Waiting(clients[i := pc], k), i);
  }

  /** Whoever waits has sent a ZADD, and stops by its transaction or by dying. */
  lemma WaitsStep(s: System, i: ClientId, a: Action, k: JobId)
    requires Possible(s, i, a) && Tidy(s.clients[i], k)
    ensures One(Waits(s.clients[i], k)) + One(Adds(s, i, a, k))
      == One(Waits(NextClient(s, i, a), k)) + One(Commits(s, i, a, k)) + One(DiesWaiting(s, i, a, k))
  {
    var pc := s.clients[i];
    if a.SweepDecide? {
      PipeSnoc(pc.pipe, PipeItem(pc.todo[0], a.verdict));
    } else if a.SweepAdd? {
      PipeSnoc(pc.pipe, PipeItem(pc.todo[0], Reschedules));
    } else {
      OtherWaitsStep(s, i, a, k);
    }
  }

  lemma OtherWaitsStep(s: System, i: ClientId, a: Action, k: JobId)
    requires Possible(s, i, a) && !a.SweepDecide? && !a.SweepAdd?
    ensures One(Waits(s.clients[i], k)) + One(Adds(s, i, a, k))
      == One(Waits(NextClient(s, i, a), k)) + One(Commits(s, i, a, k)) + One(DiesWaiting(s, i, a, k))
  {
  }

  /** A start is paid for by what was granted, or by a client that died waiting. */
  lemma StepBalance(s: System, i: ClientId, a: Action, k: JobId, m: nat)
    requires Support(s) && InOneHand(s, k, m) && Enabled(s, i, a) && Limited(s, i, a, k, m)
    ensures Potential(Next(s, i, a), k, m) + |Waiting(s.clients, k)| + One(Starts(s, i, a, k))
      <= Potential(s, k, m) + |Waiting(Next(s, i, a).clients, k)| + Granted(s, i, a, k, m) + One(DiesWaiting(s, i, a, k))
  {
    assert Tidy(s.clients[i], k);
    StepPays(s, i, a, k, m);
    WaitsStep(s, i, a, k);
    WaitingUpdate(s.clients, i, NextClient(s, i, a), k);
  }

  // ---------- Whole runs ----------

  /** What has happened to the job in the first steps of a run: starts, what it was
      granted by being created or requeued by hand, and deaths of clients between the ZADD
      of a delayed retry or repeat and its transaction. */
  datatype Totals = Totals(starts: nat, granted: nat, deaths: nat)

  ghost function StepTotals(s: System, step: Step, k: JobId, m: nat): Totals {
    var i, a := step.client, step.action;
    if Possible(s, i, a) then Totals(One(Starts(s, i, a, k)), Granted(s, i, a, k, m), One(DiesWaiting(s, i, a, k)))
    else Totals(0, 0, 0)
  }

  function Plus(a: Totals, b: Totals): Totals {
    Totals(a.starts + b.starts, a.granted + b.granted, a.deaths + b.deaths)
  }

  ghost function Totalled(steps: seq<Step>, states: seq<System>, k: JobId, m: nat, n: nat): Totals
    requires n <= |steps| && |states| == |steps| + 1
  {
    if n == 0 then Totals(0, 0, 0)
    else Plus(Totalled(steps, states, k, m, n - 1), StepTotals(states[n - 1], steps[n - 1], k, m))
  }

  ghost function Total(steps: seq<Step>, states: seq<System>, k: JobId, m: nat): Totals
    requires |states| == |steps| + 1
  {
    Totalled(steps, states, k, m, |steps|)
  }

  /** Nobody fetches the job while another client has it in hand, and no returned Retry
      for it asks for more than m. */
  ghost predicate OneHandStep(s: System, step: Step, k: JobId, m: nat) {
    Possible(s, step.client, step.action) ==>
      OneAtATime(s, step.client, step.action, k) && Limited(s, step.client, step.action, k, m)
  }

  ghost predicate OneHandAt(steps: seq<Step>, states: seq<System>, n: nat, k: JobId, m: nat)
    requires n < |steps| && |states| == |steps| + 1
  {
    OneHandStep(states[n], steps[n], k, m)
  }

  ghost predicate OneHandRun(steps: seq<Step>, states: seq<System>, k: JobId, m: nat) {
    && Run(steps, states)
    && forall n :: 0 <= n < |steps| ==> OneHandAt(steps, states, n, k, m)
  }

  /** What has been granted, and the deaths, pay for the starts so far and to come. */
  ghost predicate Paid(s: System, k: JobId, m: nat, all: Totals) {
    && InOneHand(s, k, m)
    && Potential(s, k, m) + all.starts <= all.granted + all.deaths + |Waiting(s.clients, k)|
  }

  lemma StepKeepsPaid(s: System, step: Step, t: System, k: JobId, m: nat, before: Totals)
    requires Invariant(s) && Takes(s, step, t) && OneHandStep(s, step, k, m) && Paid(s, k, m, before)
    ensures Paid(t, k, m, Plus(before, StepTotals(s, step, k, m)))
  {
    InOneHandKept(s, step.client, step.action, k, m);
    StepBalance(s, step.client, step.action, k, m);
  }

  lemma {:induction false} RunPays(steps: seq<Step>, states: seq<System>, k: JobId, m: nat, n: nat)
    requires OneHandRun(steps, states, k, m) && n <= |steps|
    ensures Paid(states[n], k, m, Totalled(steps, states, k, m, n))
  {
    if n == 0 {
      NothingPaid(states[0], k, m);
    } else {
      RunPays(steps, states, k, m, n - 1);
      RunPaysOnce(steps, states, k, m, n - 1);
    }
  }

  lemma NothingPaid(s: System, k: JobId, m: nat)
    requires Initial(s)
    ensures Paid(s, k, m, Totals(0, 0, 0))
  {
    InitialPotential(s, k, m);
  }

  lemma RunPaysOnce(steps: seq<Step>, states: seq<System>, k: JobId, m: nat, n: nat)
    requires OneHandRun(steps, states, k, m) && n < |steps|
    requires Paid(states[n], k, m, Totalled(steps, states, k, m, n))
    ensures Paid(states[n + 1], k, m, Totalled(steps, states, k, m, n + 1))
  {
    RunsKeepInvariant(steps, states, n);
    assert TakesAt(steps, states, n) && OneHandAt(steps, states, n, k, m);
    StepKeepsPaid(states[n], steps[n], states[n + 1], k, m, Totalled(steps, states, k, m, n));
  }

  lemma InitialPotential(s: System, k: JobId, m: nat)
    requires Initial(s)
    ensures InOneHand(s, k, m) && Potential(s, k, m) == 0 && Waiting(s.clients, k) == {}
  {
    assert ReadySet(s.clients, k) == {};
  }

  /** Over every run with crashes a job is started no more often than its creation and
      requeues allow, and once more for each ZADD of a delayed retry or repeat whose
      client died before its transaction, or has not got there yet. */
  lemma StartsAreBounded(steps: seq<Step>, states: seq<System>, k: JobId, m: nat)
    requires OneHandRun(steps, states, k, m)
    ensures var all := Total(steps, states, k, m);
      all.starts <= all.granted + all.deaths + |Waiting(states[|steps|].clients, k)|
  {
    RunPays(steps, states, k, m, |steps|);
  }
}
