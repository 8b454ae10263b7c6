/** `Queue.compact` (rq/queue.py): cycling the queue through a temporary list to drop
    dead ids, alone and while other clients push and workers pop. */
module Compact {
  import opened Common

  function Filter(xs: seq<JobId>, jobs: set<JobId>): seq<JobId> {
    if xs == [] then [] else (if xs[0] in jobs then [xs[0]] else []) + Filter(xs[1..], jobs)
  }

  /** `zs` interleaves `xs` and `ys`, each in its own order, with nothing lost or added. */
  predicate IsMerge(zs: seq<JobId>, xs: seq<JobId>, ys: seq<JobId>)
    decreases |zs|
  {
    if zs == [] then xs == [] && ys == []
    else
      || (xs != [] && zs[|zs| - 1] == xs[|xs| - 1] && IsMerge(zs[..|zs| - 1], xs[..|xs| - 1], ys))
      || (ys != [] && zs[|zs| - 1] == ys[|ys| - 1] && IsMerge(zs[..|zs| - 1], xs, ys[..|ys| - 1]))
  }

  // ---------- Alone ----------

  datatype Outcome = Done | NoSuchKey

  class Queue {
    var ids: seq<JobId>
    var jobs: set<JobId>

    constructor (ids: seq<JobId>, jobs: set<JobId>)
      ensures this.ids == ids && this.jobs == jobs
    {
      this.ids, this.jobs := ids, jobs;
    }

    /** RENAME fails on an empty queue, which Redis does not store. */
    method Compact() returns (r: Outcome)
      modifies this`ids
      ensures r == if old(ids) == [] then NoSuchKey else Done
      ensures ids == Filter(old(ids), jobs)
    {
      if ids == [] { return NoSuchKey; }
      var temp := ids;
      ids := [];
      while temp != []
        invariant ids + Filter(temp, jobs) == Filter(old(ids), jobs)
      {
        var id := temp[0];
        temp := temp[1..];
        if id in jobs { ids := ids + [id]; }
      }
      return Done;
    }
  }

  // ---------- With other clients ----------

  /** The compacting client: its three commands per id are separate. */
  datatype Phase = Cycling | Checking(id: JobId) | Pushing(id: JobId) | Returned

  /** History since the RENAME: `pushed` is what other clients added at the back, and
      `popped` what workers took of the ids that entered there, in order; `fronts` is
      what others added at the front and is still there, the latest first, and
      `frontsPopped` what workers took of that. */
  datatype State = State(
    queue: seq<JobId>,
    temp: seq<JobId>,
    jobs: set<JobId>,
    phase: Phase,
    popped: seq<JobId>,
    pushed: seq<JobId>,
    fronts: seq<JobId>,
    frontsPopped: seq<JobId>)

  datatype Event =
    | PopTemp
    | CheckExists
    | PushBack
    | OtherPush(id: JobId)
    | OtherPushFront(id: JobId)
    | WorkerPop
    | SaveJob(id: JobId)
    | DeleteJob(id: JobId)

  predicate Enabled(s: State, e: Event) {
    match e
    case PopTemp => s.phase.Cycling?
    case CheckExists => s.phase.Checking?
    case PushBack => s.phase.Pushing?
    case WorkerPop => s.queue != []
    case _ => true
  }

  function Apply(s: State, e: Event): State
    requires Enabled(s, e)
  {
    match e
    case PopTemp =>
      if s.temp == [] then s.(phase := Returned) else s.(temp := s.temp[1..], phase := Checking(s.temp[0]))
    case CheckExists => s.(phase := if s.phase.id in s.jobs then Pushing(s.phase.id) else Cycling)
    case PushBack => s.(queue := s.queue + [s.phase.id], phase := Cycling)
    case OtherPush(id) => s.(queue := s.queue + [id], pushed := s.pushed + [id])
    case OtherPushFront(id) => s.(queue := [id] + s.queue, fronts := [id] + s.fronts)
    case WorkerPop =>
      if s.fronts != []
        then s.(queue := s.queue[1..], fronts := s.fronts[1..], frontsPopped := s.frontsPopped + [s.queue[0]])
        else s.(queue := s.queue[1..], popped := s.popped + [s.queue[0]])
    case SaveJob(id) => s.(jobs := s.jobs + {id})
    case DeleteJob(id) => s.(jobs := s.jobs - {id})
  }

  /** Just after the RENAME. */
  function Renamed(ids: seq<JobId>, jobs: set<JobId>): State {
    State([], ids, jobs, Cycling, [], [], [], [])
  }

  predicate Possible(s: State, es: seq<Event>)
    decreases |es|
  {
    es == [] || (Enabled(s, es[0]) && Possible(Apply(s, es[0]), es[1..]))
  }

  function Final(s: State, es: seq<Event>): State
    requires Possible(s, es)
    decreases |es|
  {
    if es == [] then s else Final(Apply(s, es[0]), es[1..])
  }

  /** The old ids the client has dealt with, those it still has in hand, and the rest. */
  function InHand(s: State): seq<JobId> {
    (match s.phase case Checking(id) => [id] case Pushing(id) => [id] case _ => []) + s.temp
  }

  /** The queue behind what others put in front of it. */
  function Behind(s: State): seq<JobId> {
    if |s.fronts| <= |s.queue| then s.queue[|s.fronts|..] else []
  }

  /** No old job is deleted, and no missing one saved again, during the run. */
  predicate OldJobsSettled(before: seq<JobId>, jobs: set<JobId>, es: seq<Event>) {
    forall e :: e in es ==>
      && (e.DeleteJob? ==> !(e.id in before && e.id in jobs))
      && (e.SaveJob? ==> !(e.id in before && e.id !in jobs))
  }

  ghost predicate Invariant(s: State, before: seq<JobId>, jobs: set<JobId>, done: seq<JobId>) {
    && before == done + InHand(s)
    && (forall id :: id in before ==> (id in s.jobs <==> id in jobs))
    && (s.phase.Pushing? ==> s.phase.id in jobs)
    && (s.phase.Returned? ==> s.temp == [])
    && s.queue == s.fronts + Behind(s)
    && IsMerge(s.popped + Behind(s), Filter(done, jobs), s.pushed)
  }

  lemma MergeSnoc(zs: seq<JobId>, xs: seq<JobId>, ys: seq<JobId>, x: JobId)
    requires IsMerge(zs, xs, ys)
    ensures IsMerge(zs + [x], xs + [x], ys) && IsMerge(zs + [x], xs, ys + [x])
  {
    assert (zs + [x])[..|zs|] == zs && (xs + [x])[..|xs|] == xs && (ys + [x])[..|ys|] == ys;
  }

  lemma {:induction false} FilterSnoc(xs: seq<JobId>, x: JobId, jobs: set<JobId>)
    ensures Filter(xs + [x], jobs) == Filter(xs, jobs) + (if x in jobs then [x] else [])
  {
    if xs != [] {
      assert (xs + [x])[1..] == xs[1..] + [x];
      FilterSnoc(xs[1..], x, jobs);
    }
  }

  /** What has been dealt with after the event. */
  function DoneAfter(s: State, e: Event, done: seq<JobId>): seq<JobId>
    requires Enabled(s, e)
  {
    if e.PushBack? || (e.CheckExists? && s.phase.id !in s.jobs) then done + [s.phase.id] else done
  }

  lemma FilterDead(xs: seq<JobId>, x: JobId, jobs: set<JobId>)
    requires x !in jobs
    ensures Filter(xs + [x], jobs) == Filter(xs, jobs)
  {
    FilterSnoc(xs, x, jobs);
  }

  lemma DroppedKeeps(s: State, before: seq<JobId>, jobs: set<JobId>, done: seq<JobId>, id: JobId)
    requires Invariant(s, before, jobs, done) && s.phase == Checking(id) && id !in s.jobs
    ensures Invariant(s.(phase := Cycling), before, jobs, done + [id])
  {
    assert id in before;
    FilterDead(done, id, jobs);
    assert done + ([id] + s.temp) == (done + [id]) + ([] + s.temp);
  }

  lemma FoundKeeps(s: State, before: seq<JobId>, jobs: set<JobId>, done: seq<JobId>, id: JobId)
    requires Invariant(s, before, jobs, done) && s.phase == Checking(id) && id in s.jobs
    ensures Invariant(s.(phase := Pushing(id)), before, jobs, done)
  {
    assert id in before;
  }

  lemma PopKeeps(s: State, before: seq<JobId>, jobs: set<JobId>, done: seq<JobId>)
    requires Invariant(s, before, jobs, done) && s.phase.Cycling?
    ensures Invariant(Apply(s, PopTemp), before, jobs, done)
  {
    if s.temp != [] { assert s.temp == [s.temp[0]] + s.temp[1..]; }
  }

  lemma PushBackKeeps(s: State, before: seq<JobId>, jobs: set<JobId>, done: seq<JobId>)
    requires Invariant(s, before, jobs, done) && s.phase.Pushing?
    ensures Invariant(Apply(s, PushBack), before, jobs, done + [s.phase.id])
  {
    var t, id := Apply(s, PushBack), s.phase.id;
    assert done + InHand(s) == (done + [id]) + InHand(t);
    FilterSnoc(done, id, jobs);
    BackPushed(s, t, id);
    MergeSnoc(s.popped + Behind(s), Filter(done, jobs), s.pushed, id);
    assert t.popped + Behind(t) == s.popped + Behind(s) + [id];
  }

  lemma BackPushed(s: State, t: State, id: JobId)
    requires s.queue == s.fronts + Behind(s) && t.fronts == s.fronts && t.queue == s.queue + [id]
    ensures Behind(t) == Behind(s) + [id] && t.queue == t.fronts + Behind(t)
  {
    assert |s.fronts| <= |s.queue|;
  }

  lemma OtherPushKeeps(s: State, id: JobId, before: seq<JobId>, jobs: set<JobId>, done: seq<JobId>)
    requires Invariant(s, before, jobs, done)
    ensures Invariant(Apply(s, OtherPush(id)), before, jobs, done)
  {
    var t := Apply(s, OtherPush(id));
    BackPushed(s, t, id);
    MergeSnoc(s.popped + Behind(s), Filter(done, jobs), s.pushed, id);
    assert t.popped + Behind(t) == s.popped + Behind(s) + [id];
  }

  lemma FrontPushed(s: State, id: JobId)
    requires s.queue == s.fronts + Behind(s)
    ensures var t := Apply(s, OtherPushFront(id)); Behind(t) == Behind(s) && t.queue == t.fronts + Behind(t)
  {
    var t := Apply(s, OtherPushFront(id));
    assert t.queue == t.fronts + Behind(s);
  }

  /** A worker takes the first of what was put in front, or the first of the rest. */
  lemma Popped(s: State)
    requires s.queue == s.fronts + Behind(s) && s.queue != []
    ensures var t := Apply(s, WorkerPop);
      && t.queue == t.fronts + Behind(t)
      && t.popped + Behind(t) == s.popped + Behind(s)
      && (s.fronts != [] ==> s.fronts == [s.queue[0]] + t.fronts)
  {
    var t := Apply(s, WorkerPop);
    if s.fronts != [] {
      assert s.fronts == [s.fronts[0]] + s.fronts[1..];
      assert t.queue == t.fronts + Behind(s);
    } else {
      assert Behind(s) == s.queue && Behind(t) == t.queue;
    }
  }

  lemma OtherStepKeeps(s: State, e: Event, before: seq<JobId>, jobs: set<JobId>, done: seq<JobId>)
    requires Invariant(s, before, jobs, done) && Enabled(s, e) && OldJobsSettled(before, jobs, [e])
    requires e.OtherPushFront? || e.WorkerPop? || e.SaveJob? || e.DeleteJob?
    ensures Invariant(Apply(s, e), before, jobs, done)
  {
    assert e in [e];
    if e.OtherPushFront? { FrontPushed(s, e.id); }
    else if e.WorkerPop? { Popped(s); }
  }

  lemma StepKeeps(s: State, e: Event, before: seq<JobId>, jobs: set<JobId>, done: seq<JobId>)
    requires Invariant(s, before, jobs, done) && Enabled(s, e) && OldJobsSettled(before, jobs, [e])
    ensures Invariant(Apply(s, e), before, jobs, DoneAfter(s, e, done))
  {
    if e.PushBack? { PushBackKeeps(s, before, jobs, done); }
    else if e.PopTemp? { PopKeeps(s, before, jobs, done); }
    else if e.CheckExists? {
      if s.phase.id in s.jobs { FoundKeeps(s, before, jobs, done, s.phase.id); }
      else { DroppedKeeps(s, before, jobs, done, s.phase.id); }
    }
    else if e.OtherPush? { OtherPushKeeps(s, e.id, before, jobs, done); }
    else { OtherStepKeeps(s, e, before, jobs, done); }
  }

  lemma {:induction false} RunKeeps(s: State, es: seq<Event>, before: seq<JobId>, jobs: set<JobId>, done: seq<JobId>)
    returns (done': seq<JobId>)
    requires Possible(s, es) && Invariant(s, before, jobs, done) && OldJobsSettled(before, jobs, es)
    ensures Invariant(Final(s, es), before, jobs, done')
    decreases |es|
  {
    if es == [] {
      done' := done;
    } else {
      assert OldJobsSettled(before, jobs, [es[0]]) by {
        forall e | e in [es[0]] ensures e in es {}
      }
      StepKeeps(s, es[0], before, jobs, done);
      done' := RunKeeps(Apply(s, es[0]), es[1..], before, jobs, DoneAfter(s, es[0], done));
    }
  }

  /** When compact returns, the queue is what others have put in front, followed by a rest
      that is, together with what workers took of it, an order-preserving merge of the old
      ids with a job and the ids newly pushed at the back. */
  lemma CompactUnderInterference(before: seq<JobId>, jobs: set<JobId>, es: seq<Event>)
    requires Possible(Renamed(before, jobs), es) && OldJobsSettled(before, jobs, es)
    requires Final(Renamed(before, jobs), es).phase.Returned?
    ensures var s := Final(Renamed(before, jobs), es);
      s.queue == s.fronts + Behind(s) && IsMerge(s.popped + Behind(s), Filter(before, jobs), s.pushed)
  {
    var done := RunKeeps(Renamed(before, jobs), es, before, jobs, []);
    assert before == done;
  }

  /** At any moment before that, exactly the ids not dealt with yet are in no queue: a
      client that stops there loses those, and no others. */
  lemma StoppedHalfway(before: seq<JobId>, jobs: set<JobId>, es: seq<Event>) returns (done: seq<JobId>)
    requires Possible(Renamed(before, jobs), es) && OldJobsSettled(before, jobs, es)
    ensures var s := Final(Renamed(before, jobs), es);
      && before == done + InHand(s) && s.queue == s.fronts + Behind(s)
      && IsMerge(s.popped + Behind(s), Filter(done, jobs), s.pushed)
  {
    done := RunKeeps(Renamed(before, jobs), es, before, jobs, []);
  }

  /** What others put in front is popped or still there, each id as often as it was put. */
  function FrontPushes(es: seq<Event>): seq<JobId> {
    if es == [] then [] else (if es[0].OtherPushFront? then [es[0].id] else []) + FrontPushes(es[1..])
  }

  lemma {:induction false} FrontsConserved(s: State, es: seq<Event>)
    requires Possible(s, es) && s.queue == s.fronts + Behind(s)
    ensures multiset(Final(s, es).fronts) + multiset(Final(s, es).frontsPopped)
         == multiset(s.fronts) + multiset(s.frontsPopped) + multiset(FrontPushes(es))
    decreases |es|
  {
    if es != [] {
      var t := Apply(s, es[0]);
      FrontsStep(s, es[0]);
      FrontsConserved(t, es[1..]);
    }
  }

  lemma FrontsStep(s: State, e: Event)
    requires Enabled(s, e) && s.queue == s.fronts + Behind(s)
    ensures var t := Apply(s, e);
      && t.queue == t.fronts + Behind(t)
      && multiset(t.fronts) + multiset(t.frontsPopped)
         == multiset(s.fronts) + multiset(s.frontsPopped) + multiset(if e.OtherPushFront? then [e.id] else [])
  {
    var t := Apply(s, e);
    if e.PushBack? {
      BackPushed(s, t, s.phase.id);
    } else if e.OtherPush? {
      BackPushed(s, t, e.id);
    } else if e.OtherPushFront? {
      FrontPushed(s, e.id);
    } else if e.WorkerPop? {
      Popped(s);
    }
  }

  /** A merge has exactly the ids of its two parts. */
  lemma {:induction false} MergeCounts(zs: seq<JobId>, xs: seq<JobId>, ys: seq<JobId>)
    requires IsMerge(zs, xs, ys)
    ensures multiset(zs) == multiset(xs) + multiset(ys)
    decreases |zs|
  {
    if zs != [] {
      assert zs == zs[..|zs| - 1] + [zs[|zs| - 1]];
      if xs != [] && zs[|zs| - 1] == xs[|xs| - 1] && IsMerge(zs[..|zs| - 1], xs[..|xs| - 1], ys) {
        assert xs == xs[..|xs| - 1] + [xs[|xs| - 1]];
        MergeCounts(zs[..|zs| - 1], xs[..|xs| - 1], ys);
      } else {
        assert ys == ys[..|ys| - 1] + [ys[|ys| - 1]];
        MergeCounts(zs[..|zs| - 1], xs, ys[..|ys| - 1]);
      }
    }
  }
}
