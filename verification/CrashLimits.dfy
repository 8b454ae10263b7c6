/** When the counters alone bound how often a job is started although clients die: exactly
    when none of its retries and repeats comes after a delay. */
module CrashLimits {
  import opened Common
  import opened CrashModel
  import opened CrashStarts
  import opened CrashRecovery

  /** None of the retries and repeats the counters allow is delayed, nor are those the
      job asks for by what it returns. */
  predicate AllAtOnce(s: System, k: JobId, c: Counters, m: nat, delays: bool) {
    && (forall n :: 1 <= n <= c.retries ==> s.atOnce(k, n))
    && (forall n :: 1 <= n <= c.repeats ==> s.repeatAtOnce(k, n))
    && !(delays && m > 0)
  }

  /** The job is created with the counters c and not requeued by hand; at most m Retries
      it returns are honoured, and they carry a delay only if `delays`. */
  ghost predicate OneLifeStep(s: System, step: Step, k: JobId, c: Counters, m: nat, delays: bool) {
    Possible(s, step.client, step.action) ==>
      var i, a := step.client, step.action;
      && OneHandStep(s, step, k, m)
      && (NewCounters(s, i, a, k).Some? ==> NewCounters(s, i, a, k).value == c)
      && !(a.Requeue? && a.j == k)
      && (a.RetryMark? && a.why.Returned? && s.clients[i].j == k ==> delays)
  }

  ghost predicate OneLifeAt(steps: seq<Step>, states: seq<System>, n: nat, k: JobId, c: Counters, m: nat, delays: bool)
    requires n < |steps| && |states| == |steps| + 1
  {
    OneLifeStep(states[n], steps[n], k, c, m, delays)
  }

  ghost predicate OneLife(steps: seq<Step>, states: seq<System>, k: JobId, c: Counters, m: nat, delays: bool) {
    && Run(steps, states)
    && forall n :: 0 <= n < |steps| ==> OneLifeAt(steps, states, n, k, c, m, delays)
  }

  // ---------- Without delays the counters are enough ----------

  predicate Below(a: Counters, c: Counters) {
    a.retries <= c.retries && a.repeats <= c.repeats
  }

  /** Nobody has or had more left. */
  ghost predicate Small(s: System, k: JobId, c: Counters) {
    && Below(Left(s.r, k), c)
    && (forall i :: Below(Copy(s, i, k), c))
    && (forall i :: i in s.parents && s.parents[i].j == k ==> Below(s.parents[i].copy, c))
  }

  /** The client is about to put the job back after a delay. */
  predicate Delaying(pc: Client, k: JobId) {
    match pc
    case Marked(j, _, _) => j == k
    case Added(j, _, _) => j == k
    case Sweeping(_, _, pipe) => k in Rescheduled(pipe)
    case SweepFetched(_, _, pipe) => k in Rescheduled(pipe)
    case SweepMarked(_, todo, pipe) => k in Rescheduled(pipe) || k in First(todo)
    case StuckMarked(j) => j == k
    case StuckAdded(j) => j == k
    case _ => false
  }

  ghost predicate NobodyDelays(s: System, k: JobId) {
    forall i :: i in s.clients ==> !Delaying(s.clients[i], k)
  }

  lemma SavedSmall(s: System, i: ClientId, a: Action, k: JobId, c: Counters)
    requires Possible(s, i, a) && Small(s, k, c) && k in SavedLeft(s, i, a)
    requires NewCounters(s, i, a, k).Some? ==> NewCounters(s, i, a, k).value == c
    ensures Below(SavedLeft(s, i, a)[k], c)
  {
    assert Below(Copy(s, i, k), c);
  }

  lemma CopiesSmall(s: System, i: ClientId, a: Action, k: JobId, c: Counters)
    requires Possible(s, i, a) && Small(s, k, c) && k in NextCopies(s, i, a)
    ensures Below(NextCopies(s, i, a)[k], c)
  {
    assert Below(Copy(s, i, k), c);
  }

  lemma SmallKept(s: System, i: ClientId, a: Action, k: JobId, c: Counters)
    requires Possible(s, i, a) && Small(s, k, c)
    requires NewCounters(s, i, a, k).Some? ==> NewCounters(s, i, a, k).value == c
    ensures Small(Next(s, i, a), k, c)
  {
    var t := Next(s, i, a);
    LeftAfter(s, i, a, k);
    if k in SavedLeft(s, i, a) { SavedSmall(s, i, a, k, c); }
    assert t.copies == s.copies[i := NextCopies(s, i, a)] && t.parents == NextParents(s, i, a);
    forall l ensures Below(Copy(t, l, k), c) {
      assert Below(Copy(s, l, k), c);
      if l == i && k in NextCopies(s, i, a) { CopiesSmall(s, i, a, k, c); }
    }
  }

  /** A delayed put-back would need a counter the job never had. */
  lemma NoDelay(s: System, i: ClientId, j: JobId, c: Counters, why: Reason, m: nat, delays: bool)
    requires Small(s, j, c) && AllAtOnce(s, j, c, m, delays) && WithinLimit(why, m) && (why.Returned? ==> delays)
    ensures !Later(s, i, j, why)
  {
    assert Below(Copy(s, i, j), c);
  }

  lemma NobodyStartsToDelay(s: System, i: ClientId, a: Action, k: JobId, c: Counters, m: nat, delays: bool)
    requires Possible(s, i, a) && (a.HorseDies? ==> !s.clients[i].Idle?)
    requires Small(s, k, c) && AllAtOnce(s, k, c, m, delays)
    requires OneLifeStep(s, Step(i, a), k, c, m, delays) && !Delaying(s.clients[i], k)
    ensures !Delaying(NextClient(s, i, a), k)
  {
    var pc := s.clients[i];
    if a.RetryMark? {
      if pc.j == k { NoDelay(s, i, k, c, a.why, m, delays); }
    } else if a.RepeatAdd? {
      if pc.j == k { NoDelay(s, i, k, c, Repeat, m, delays); }
    } else if a.StuckMark? {
      if pc.j == k { NoDelay(s, i, k, c, Exception, m, delays); }
    } else if a.SweepMark? {
      if pc.todo[0] == k { NoDelay(s, i, k, c, Exception, m, delays); }
    } else if a.SweepDecide? {
      PipeSnoc(pc.pipe, PipeItem(pc.todo[0], a.verdict));
    } else if a.SweepAdd? {
      PipeSnoc(pc.pipe, PipeItem(pc.todo[0], Reschedules));
    }
  }

  ghost predicate Prompt(s: System, k: JobId, c: Counters, m: nat, delays: bool, all: Totals) {
    && Small(s, k, c) && NobodyDelays(s, k) && AllAtOnce(s, k, c, m, delays)
    && all.granted <= (if k in s.r.jobs then 1 + Budget(c, m) else 0) && all.deaths == 0
  }

  lemma StepKeepsPrompt(s: System, step: Step, t: System, k: JobId, c: Counters, m: nat, delays: bool, before: Totals)
    requires Invariant(s) && Takes(s, step, t) && OneLifeStep(s, step, k, c, m, delays)
    requires Prompt(s, k, c, m, delays, before)
    ensures Prompt(t, k, c, m, delays, Plus(before, StepTotals(s, step, k, m)))
  {
    var i, a := step.client, step.action;
    SmallKept(s, i, a, k, c);
    NobodyStartsToDelay(s, i, a, k, c, m, delays);
    assert t.clients == s.clients[i := NextClient(s, i, a)];
    NobodyDiesWaiting(s, i, a, k);
    GrantedOnce(s, i, a, k, c, m);
  }

  lemma NobodyDiesWaiting(s: System, i: ClientId, a: Action, k: JobId)
    requires Possible(s, i, a) && NobodyDelays(s, k)
    ensures !DiesWaiting(s, i, a, k)
  {
  }

  /** Only a creation grants starts, and there is only one. */
  lemma GrantedOnce(s: System, i: ClientId, a: Action, k: JobId, c: Counters, m: nat)
    requires Support(s) && Enabled(s, i, a) && !(a.Requeue? && a.j == k)
    requires NewCounters(s, i, a, k).Some? ==> NewCounters(s, i, a, k).value == c
    ensures k in s.r.jobs ==> Granted(s, i, a, k, m) == 0 && k in Next(s, i, a).r.jobs
    ensures k !in s.r.jobs ==> Granted(s, i, a, k, m) == if k in Next(s, i, a).r.jobs then 1 + Budget(c, m) else 0
  {
    CreationIsFirst(s, i, a, k);
    JobsChange(s, i, a);
  }

  lemma {:induction false} PromptRun(steps: seq<Step>, states: seq<System>, k: JobId, c: Counters, m: nat, delays: bool, n: nat)
    requires OneLife(steps, states, k, c, m, delays) && n <= |steps| && AllAtOnce(states[0], k, c, m, delays)
    ensures Prompt(states[n], k, c, m, delays, Totalled(steps, states, k, m, n))
  {
    if n > 0 {
      PromptRun(steps, states, k, c, m, delays, n - 1);
      PromptOnce(steps, states, k, c, m, delays, n - 1);
    }
  }

  lemma PromptOnce(steps: seq<Step>, states: seq<System>, k: JobId, c: Counters, m: nat, delays: bool, n: nat)
    requires OneLife(steps, states, k, c, m, delays) && n < |steps|
    requires Prompt(states[n], k, c, m, delays, Totalled(steps, states, k, m, n))
    ensures Prompt(states[n + 1], k, c, m, delays, Totalled(steps, states, k, m, n + 1))
  {
    RunsKeepInvariant(steps, states, n);
    assert TakesAt(steps, states, n) && OneLifeAt(steps, states, n, k, c, m, delays);
    StepKeepsPrompt(states[n], steps[n], states[n + 1], k, c, m, delays, Totalled(steps, states, k, m, n));
  }

  lemma AtOnceIsBounded(steps: seq<Step>, states: seq<System>, k: JobId, c: Counters, m: nat, delays: bool)
    requires OneLife(steps, states, k, c, m, delays) && AllAtOnce(states[0], k, c, m, delays)
    ensures Total(steps, states, k, m).starts <= 1 + Budget(c, m)
  {
    PromptRun(steps, states, k, c, m, delays, |steps|);
    assert OneHandRun(steps, states, k, m) by {
      forall n | 0 <= n < |steps| ensures OneHandAt(steps, states, n, k, m) {
        assert TakesAt(steps, states, n) && OneLifeAt(steps, states, n, k, c, m, delays);
      }
    }
    StartsAreBounded(steps, states, k, m);
    NobodyWaits(states[|steps|], k);
  }

  lemma NobodyWaits(s: System, k: JobId)
    requires NobodyDelays(s, k)
    ensures Waiting(s.clients, k) == {}
  {
  }

  // ---------- With a delay there is no bound ----------

  /** What a run is about: where it starts, and whose life it shows. */
  datatype Life = Life(start: System, k: JobId, c: Counters, m: nat, delays: bool)

  /** Some run leads to t and starts the job n times. */
  ghost predicate Lived(g: Life, t: System, n: nat) {
    exists steps, states ::
      && OneLife(steps, states, g.k, g.c, g.m, g.delays) && states[0] == g.start && states[|steps|] == t
      && Total(steps, states, g.k, g.m).starts == n
  }

  lemma {:induction false} TotalledPrefix(steps: seq<Step>, states: seq<System>, step: Step, t: System, k: JobId, m: nat, n: nat)
    requires n <= |steps| && |states| == |steps| + 1
    ensures Totalled(steps + [step], states + [t], k, m, n) == Totalled(steps, states, k, m, n)
  {
    if n > 0 {
      TotalledPrefix(steps, states, step, t, k, m, n - 1);
      assert (steps + [step])[n - 1] == steps[n - 1] && (states + [t])[n - 1] == states[n - 1];
    }
  }

  lemma LongerTotal(steps: seq<Step>, states: seq<System>, step: Step, t: System, k: JobId, m: nat)
    requires |states| == |steps| + 1
    ensures Total(steps + [step], states + [t], k, m)
         == Plus(Total(steps, states, k, m), StepTotals(states[|steps|], step, k, m))
  {
    TotalledPrefix(steps, states, step, t, k, m, |steps|);
    assert (steps + [step])[|steps|] == step && (states + [t])[|steps|] == states[|steps|];
  }

  lemma LifeBegins(g: Life)
    requires Initial(g.start)
    ensures Lived(g, g.start, 0)
  {
    assert OneLife([], [g.start], g.k, g.c, g.m, g.delays);
    assert [g.start][0] == g.start && Total([], [g.start], g.k, g.m).starts == 0;
  }

  lemma LongerLife(steps: seq<Step>, states: seq<System>, step: Step, t: System, g: Life)
    requires OneLife(steps, states, g.k, g.c, g.m, g.delays)
    requires Takes(states[|steps|], step, t) && OneLifeStep(states[|steps|], step, g.k, g.c, g.m, g.delays)
    ensures OneLife(steps + [step], states + [t], g.k, g.c, g.m, g.delays)
  {
    var steps', states' := steps + [step], states + [t];
    forall n | 0 <= n < |steps'|
      ensures TakesAt(steps', states', n) && OneLifeAt(steps', states', n, g.k, g.c, g.m, g.delays)
    {
      if n < |steps| {
        assert TakesAt(steps, states, n) && OneLifeAt(steps, states, n, g.k, g.c, g.m, g.delays);
        assert steps'[n] == steps[n] && states'[n] == states[n] && states'[n + 1] == states[n + 1];
      }
    }
  }

  lemma Live(g: Life, t: System, n: nat, i: ClientId, a: Action) returns (t': System)
    requires Lived(g, t, n) && Enabled(t, i, a) && OneLifeStep(t, Step(i, a), g.k, g.c, g.m, g.delays)
    ensures t' == Next(t, i, a) && Lived(g, t', n + One(Starts(t, i, a, g.k)))
  {
    var steps, states :|
      && OneLife(steps, states, g.k, g.c, g.m, g.delays) && states[0] == g.start && states[|steps|] == t
      && Total(steps, states, g.k, g.m).starts == n;
    t' := Next(t, i, a);
    LongerLife(steps, states, Step(i, a), t', g);
    LongerTotal(steps, states, Step(i, a), t', g.k, g.m);
    var steps', states' := steps + [Step(i, a)], states + [t'];
    assert states'[0] == g.start && states'[|steps'|] == t';
  }

  /** The one client that does anything is at `pc`; the job is where the lists say, and has
      these counters. */
  ghost predicate At(g: Life, t: System, n: nat, i: ClientId, pc: Client, queue: seq<JobId>, taken: seq<JobId>,
                     due: bool, left: Counters)
  {
    && Lived(g, t, n) && Alone(t, i) && t.clients[i] == pc
    && t.r.queue == queue && t.r.intermediate == taken && t.r.scheduled == (if due then {g.k} else {})
    && g.k in t.r.jobs && Left(t.r, g.k) == left
    && t.atOnce == g.start.atOnce && t.repeatAtOnce == g.start.repeatAtOnce
  }

  lemma TakeIt(g: Life, t: System, n: nat, i: ClientId, left: Counters) returns (t': System)
    requires At(g, t, n, i, Idle, [g.k], [], false, left)
    ensures At(g, t', n, i, Dequeued(g.k), [], [g.k], false, left)
  {
    t' := Live(g, t, n, i, Dequeue);
    assert [g.k][1..] == [] && [] + [g.k] == [g.k];
  }

  lemma PrepareIt(g: Life, t: System, n: nat, i: ClientId, left: Counters) returns (t': System, e: nat)
    requires At(g, t, n, i, Dequeued(g.k), [], [g.k], false, left)
    ensures At(g, t', n, i, Prepared(g.k, e), [], [g.k], false, left) && Copy(t', i, g.k) == left
  {
    e := FreshExecution(t.execs);
    t' := Live(g, t, n, i, PrepareExecution(e));
  }

  lemma BeginIt(g: Life, t: System, n: nat, i: ClientId, e: nat, left: Counters) returns (t': System)
    requires At(g, t, n, i, Prepared(g.k, e), [], [g.k], false, left) && Copy(t, i, g.k) == left
    ensures At(g, t', n + 1, i, Running(g.k, e), [], [], false, left) && Copy(t', i, g.k) == left
  {
    t' := Live(g, t, n, i, PrepareJob);
    assert RemoveFirst([g.k], g.k) == [];
  }

  lemma StartIt(g: Life, t: System, n: nat, i: ClientId, left: Counters) returns (t': System, e: nat)
    requires At(g, t, n, i, Idle, [g.k], [], false, left)
    ensures At(g, t', n + 1, i, Running(g.k, e), [], [], false, left) && Copy(t', i, g.k) == left
  {
    var t1 := TakeIt(g, t, n, i, left);
    var t2;
    t2, e := PrepareIt(g, t1, n, i, left);
    t' := BeginIt(g, t2, n, i, e, left);
  }

  lemma RepeatLater(g: Life, t: System, n: nat, i: ClientId, e: nat, left: Counters) returns (t': System)
    requires At(g, t, n, i, Running(g.k, e), [], [], false, left) && Copy(t, i, g.k) == left
    requires Later(t, i, g.k, Repeat)
    ensures At(g, t', n, i, Added(g.k, e, false), [], [], true, left)
  {
    t' := Live(g, t, n, i, RepeatAdd);
  }

  lemma RetryLater(g: Life, t: System, n: nat, i: ClientId, e: nat, left: Counters, why: Reason) returns (t': System)
    requires At(g, t, n, i, Running(g.k, e), [], [], false, left) && Copy(t, i, g.k) == left
    requires Later(t, i, g.k, why) && !why.Repeat? && WithinLimit(why, g.m) && (why.Returned? ==> g.delays)
    ensures At(g, t', n, i, Added(g.k, e, false), [], [], true, left)
  {
    var t1 := Live(g, t, n, i, RetryMark(why));
    assert At(g, t1, n, i, Marked(g.k, e, false), [], [], false, left);
    t' := AddIt(g, t1, n, i, e, left);
  }

  lemma AddIt(g: Life, t: System, n: nat, i: ClientId, e: nat, left: Counters) returns (t': System)
    requires At(g, t, n, i, Marked(g.k, e, false), [], [], false, left)
    ensures At(g, t', n, i, Added(g.k, e, false), [], [], true, left)
  {
    t' := Live(g, t, n, i, RetryAdd);
  }

  lemma DieThere(g: Life, t: System, n: nat, i: ClientId, e: nat, left: Counters) returns (t': System)
    requires At(g, t, n, i, Added(g.k, e, false), [], [], true, left)
    ensures At(g, t', n, i, Idle, [], [], true, left)
  {
    t' := Live(g, t, n, i, Crash);
  }

  lemma ReadDue(g: Life, t: System, n: nat, i: ClientId, left: Counters) returns (t': System)
    requires At(g, t, n, i, Idle, [], [], true, left)
    ensures At(g, t', n, i, Draining([g.k], {g.k}), [], [], true, left) && Copy(t', i, g.k) == left
  {
    assert ToSet([g.k]) == {g.k} && {g.k} * t.r.jobs.Keys == {g.k};
    t' := Live(g, t, n, i, DrainRead([g.k]));
  }

  lemma MoveDue(g: Life, t: System, n: nat, i: ClientId, left: Counters) returns (t': System)
    requires At(g, t, n, i, Draining([g.k], {g.k}), [], [], true, left) && Copy(t, i, g.k) == left
    ensures At(g, t', n, i, Idle, [g.k], [], false, left)
  {
    assert ToSet([g.k]) == {g.k} && {g.k} * {g.k} == {g.k} && [g.k][1..] == [] && [] + [g.k] == [g.k];
    assert PushAll([g.k], [], {g.k}, {}) == [g.k];
    t' := Live(g, t, n, i, DrainExec({}));
  }

  /** One start after which the counters are what they were. */
  lemma Round(g: Life, t: System, n: nat, i: ClientId, left: Counters, why: Reason) returns (t': System)
    requires At(g, t, n, i, Idle, [g.k], [], false, left)
    requires Grants(left, why) && Delayed(t, g.k, left, why) && WithinLimit(why, g.m) && (why.Returned? ==> g.delays)
    ensures At(g, t', n + 1, i, Idle, [g.k], [], false, left)
  {
    var t1, e := StartIt(g, t, n, i, left);
    assert Later(t1, i, g.k, why);
    var t2;
    if why.Repeat? { t2 := RepeatLater(g, t1, n + 1, i, e, left); }
    else { t2 := RetryLater(g, t1, n + 1, i, e, left, why); }
    var t3 := DieThere(g, t2, n + 1, i, e, left);
    var t4 := ReadDue(g, t3, n + 1, i, left);
    t' := MoveDue(g, t4, n + 1, i, left);
  }

  lemma {:induction false} Rounds(g: Life, t: System, n: nat, i: ClientId, left: Counters, why: Reason, x: nat)
    returns (t': System)
    requires At(g, t, n, i, Idle, [g.k], [], false, left)
    requires Grants(left, why) && Delayed(t, g.k, left, why) && WithinLimit(why, g.m) && (why.Returned? ==> g.delays)
    ensures Lived(g, t', n + x)
    decreases x
  {
    if x == 0 {
      t' := t;
    } else {
      var t1 := Round(g, t, n, i, left, why);
      t' := Rounds(g, t1, n + 1, i, left, why, x - 1);
    }
  }

  lemma PutBackNow(g: Life, t: System, n: nat, i: ClientId, left: Counters, why: Reason) returns (t': System)
    requires At(g, t, n, i, Idle, [g.k], [], false, left)
    requires Grants(left, why) && !Delayed(t, g.k, left, why) && !why.Returned?
    ensures At(g, t', n + 1, i, Idle, [g.k], [], false, Used(left, why))
  {
    var t1, e := StartIt(g, t, n, i, left);
    assert AtOnce(t1, i, g.k, why) && [] + [g.k] == [g.k];
    if why.Repeat? { t' := Live(g, t1, n + 1, i, RepeatNow); }
    else { t' := Live(g, t1, n + 1, i, RetryNow(false, why)); }
  }

  /** The v-th retry or repeat from the end is delayed, and still to come. */
  predicate DelayAhead(s: System, k: JobId, left: Counters, why: Reason, v: nat) {
    match why
    case Exception => 1 <= v <= left.retries && !s.atOnce(k, v)
    case Repeat => 1 <= v <= left.repeats && !s.repeatAtOnce(k, v)
    case _ => false
  }

  lemma StillAhead(s: System, k: JobId, left: Counters, why: Reason, v: nat)
    requires DelayAhead(s, k, left, why, v) && !Delayed(s, k, left, why)
    ensures Grants(left, why) && DelayAhead(s, k, Used(left, why), why, v)
    ensures Used(left, why).retries + Used(left, why).repeats < left.retries + left.repeats
  {
  }

  lemma GrantedAhead(s: System, k: JobId, left: Counters, why: Reason, v: nat)
    requires DelayAhead(s, k, left, why, v)
    ensures Grants(left, why) && !why.Returned?
  {
  }

  /** Using up what comes at once leads to the retry or repeat that is delayed. */
  lemma {:induction false} Descend(g: Life, t: System, n: nat, i: ClientId, left: Counters, why: Reason, v: nat, x: nat)
    returns (t': System, y: nat)
    requires At(g, t, n, i, Idle, [g.k], [], false, left)
    requires DelayAhead(t, g.k, left, why, v)
    ensures y >= x && Lived(g, t', y)
    decreases left.retries + left.repeats
  {
    GrantedAhead(t, g.k, left, why, v);
    if Delayed(t, g.k, left, why) {
      t' := Rounds(g, t, n, i, left, why, x);
      y := n + x;
    } else {
      StillAhead(t, g.k, left, why, v);
      var t1 := PutBackNow(g, t, n, i, left, why);
      assert t1.atOnce == t.atOnce && t1.repeatAtOnce == t.repeatAtOnce;
      t', y := Descend(g, t1, n + 1, i, Used(left, why), why, v, x);
    }
  }

  lemma Enqueue(g: Life, i: ClientId) returns (t: System)
    requires Initial(g.start) && i in g.start.clients
    ensures At(g, t, 0, i, Idle, [g.k], [], false, g.c)
  {
    LifeBegins(g);
    t := Live(g, g.start, 0, i, EnqueueNew(g.k, false, g.c));
    assert [] + [g.k] == [g.k];
  }

  /** If one of the retries and repeats the job has is delayed, then for every x some run
      starts it at least x times. */
  lemma NoBound(g: Life, i: ClientId, x: nat) returns (t: System, y: nat)
    requires Initial(g.start) && i in g.start.clients && g.c.returned == 0
    requires !AllAtOnce(g.start, g.k, g.c, g.m, g.delays)
    ensures y >= x && Lived(g, t, y)
  {
    var t1 := Enqueue(g, i);
    if v :| 1 <= v <= g.c.retries && !g.start.atOnce(g.k, v) {
      t, y := Descend(g, t1, 0, i, g.c, Exception, v, x);
    } else if v :| 1 <= v <= g.c.repeats && !g.start.repeatAtOnce(g.k, v) {
      t, y := Descend(g, t1, 0, i, g.c, Repeat, v, x);
    } else {
      t := Rounds(g, t1, 0, i, g.c, Returned(g.m, true), x);
      y := x;
    }
  }

  /** The counters a job is created with bound how often it is started, over all runs with
      crashes, if and only if none of its retries and repeats comes after a delay. */
  lemma BoundSurvivesExactly(g: Life, i: ClientId)
    requires Initial(g.start) && i in g.start.clients && g.c.returned == 0
    ensures AllAtOnce(g.start, g.k, g.c, g.m, g.delays)
      <==> forall t, n: nat :: Lived(g, t, n) ==> n <= 1 + g.c.retries + g.c.repeats + g.m
  {
    if AllAtOnce(g.start, g.k, g.c, g.m, g.delays) {
      forall t, n: nat | Lived(g, t, n) ensures n <= 1 + g.c.retries + g.c.repeats + g.m {
        var steps, states :|
          && OneLife(steps, states, g.k, g.c, g.m, g.delays) && states[0] == g.start && states[|steps|] == t
          && Total(steps, states, g.k, g.m).starts == n;
        AtOnceIsBounded(steps, states, g.k, g.c, g.m, g.delays);
      }
    } else {
      var t, y := NoBound(g, i, 2 + g.c.retries + g.c.repeats + g.m);
    }
  }
}
