/** Clean-up of jobs stuck in the intermediate queue (rq/intermediate_queue.py), over
    any number of sweeps. Times are in seconds. */
module IntermediateQueue {
  import opened Common

  const GRACE := 60
  const KEY_LIFETIME := 3600 * 24

  /** What one sweep reads and does not change itself. */
  datatype Surroundings = Surroundings(started: set<JobId>, jobs: set<JobId>)

  /** `seen` holds the first-seen keys with the time each was set; `handled` lists the
      jobs handed to `handle_job_failure`. */
  datatype State = State(ids: seq<JobId>, seen: map<JobId, int>, handled: seq<JobId>)

  /** GET of the first-seen key, which expires after a day. */
  function FirstSeen(s: State, id: JobId, now: int): Option<int> {
    if id in s.seen && now < s.seen[id] + KEY_LIFETIME then Some(s.seen[id]) else None
  }

  /** One id of the sweep. */
  function Visit(s: State, id: JobId, env: Surroundings, now: int): State {
    if id in env.started then s
    else if id !in env.jobs then s.(ids := RemoveFirst(s.ids, id))
    else
      match FirstSeen(s, id, now)
      case None => s.(seen := s.seen[id := now])
      case Some(t) => if now - t > GRACE then State(RemoveFirst(s.ids, id), s.seen, s.handled + [id]) else s
  }

  function Visits(s: State, ids: seq<JobId>, env: Surroundings, now: int): State
    decreases |ids|
  {
    if ids == [] then s else Visits(Visit(s, ids[0], env, now), ids[1..], env, now)
  }

  function Sweep(s: State, env: Surroundings, now: int): State {
    Visits(s, s.ids, env, now)
  }

  class Cleaner {
    var state: State

    constructor (s: State)
      ensures state == s
    {
      state := s;
    }

    /** SET NX EX: true if the key was not there. */
    method SetFirstSeen(id: JobId, now: int) returns (added: bool)
      modifies this`state
      ensures added <==> FirstSeen(old(state), id, now).None?
      ensures state == if added then old(state).(seen := old(state).seen[id := now]) else old(state)
    {
      if FirstSeen(state, id, now).Some? { return false; }
      state := state.(seen := state.seen[id := now]);
      return true;
    }

    method Remove(id: JobId)
      modifies this`state
      ensures state == old(state).(ids := RemoveFirst(old(state).ids, id))
    {
      state := state.(ids := RemoveFirst(state.ids, id));
    }

    method Cleanup(env: Surroundings, now: int)
      modifies this`state
      ensures state == Sweep(old(state), env, now)
    {
      var ids := state.ids;
      var i := 0;
      while i < |ids|
        invariant i <= |ids| && Visits(state, ids[i..], env, now) == Sweep(old(state), env, now)
      {
        var id := ids[i];
        assert ids[i..][1..] == ids[i + 1..];
        i := i + 1;
        if id !in env.started {
          if id !in env.jobs {
            Remove(id);
            continue;
          }
          var first := SetFirstSeen(id, now);
          if first { continue; }
          var t := FirstSeen(state, id, now).value;
          if now - t > GRACE {
            state := state.(handled := state.handled + [id]);
            Remove(id);
          }
        }
      }
      assert ids[i..] == [];
    }
  }

  // ---------- One id's view of a sweep ----------

  /** Everything the state says about one id. */
  datatype View = View(listed: nat, key: Option<int>, handled: bool)

  ghost function ViewOf(s: State, k: JobId): View {
    View(multiset(s.ids)[k], if k in s.seen then Some(s.seen[k]) else None, k in s.handled)
  }

  /** The key, if it has not expired. */
  function LiveKey(v: View, now: int): Option<int> {
    if v.key.Some? && now < v.key.value + KEY_LIFETIME then v.key else None
  }

  predicate Stuck(k: JobId, env: Surroundings) {
    k !in env.started && k in env.jobs
  }

  /** `n` visits of one sweep, one for each time the id was listed at its start. */
  function Visited(v: View, k: JobId, env: Surroundings, now: int, n: nat): View
    requires n <= v.listed
  {
    if n == 0 || k in env.started then v
    else if k !in env.jobs then v.(listed := v.listed - n)
    else
      match LiveKey(v, now)
      case None => v.(key := Some(now))
      case Some(t) => if now - t > GRACE then v.(listed := v.listed - n, handled := true) else v
  }

  lemma CountRest(ids: seq<JobId>, k: JobId)
    requires ids != []
    ensures multiset(ids)[k] == multiset(ids[1..])[k] + if ids[0] == k then 1 else 0
  {
    assert ids == [ids[0]] + ids[1..];
  }

  lemma CountRemoved(ids: seq<JobId>, x: JobId, k: JobId)
    requires x == k ==> multiset(ids)[k] > 0
    ensures multiset(RemoveFirst(ids, x))[k] == multiset(ids)[k] - if x == k then 1 else 0
  {
    RemoveFirstCount(ids, x);
  }

  lemma ViewRemoved(s: State, x: JobId, k: JobId)
    requires x == k ==> multiset(s.ids)[k] > 0
    ensures ViewOf(s.(ids := RemoveFirst(s.ids, x)), k)
         == if x == k then ViewOf(s, k).(listed := ViewOf(s, k).listed - 1) else ViewOf(s, k)
  {
    CountRemoved(s.ids, x, k);
  }

  lemma ViewHandled(s: State, x: JobId, k: JobId)
    ensures ViewOf(s.(handled := s.handled + [x]), k) == if x == k then ViewOf(s, k).(handled := true) else ViewOf(s, k)
  {
  }

  lemma OneVisit(s: State, x: JobId, env: Surroundings, now: int, k: JobId)
    requires x == k ==> multiset(s.ids)[k] > 0
    ensures ViewOf(Visit(s, x, env, now), k) == if x == k then Visited(ViewOf(s, k), k, env, now, 1) else ViewOf(s, k)
  {
    if x !in env.started {
      if x !in env.jobs {
        ViewRemoved(s, x, k);
      } else if FirstSeen(s, x, now).Some? && now - FirstSeen(s, x, now).value > GRACE {
        ViewRemoved(s, x, k);
        ViewHandled(s.(ids := RemoveFirst(s.ids, x)), x, k);
      }
    }
  }

  /** Ids do not disturb each other, and an id listed more than once is treated as if it
      were visited once, and then removed as often as it was listed. */
  lemma {:induction false} SweepView(s: State, ids: seq<JobId>, env: Surroundings, now: int, k: JobId)
    requires multiset(ids)[k] <= multiset(s.ids)[k]
    ensures ViewOf(Visits(s, ids, env, now), k) == Visited(ViewOf(s, k), k, env, now, multiset(ids)[k])
    decreases |ids|
  {
    if ids != [] {
      CountRest(ids, k);
      OneVisit(s, ids[0], env, now, k);
      var s1 := Visit(s, ids[0], env, now);
      VisitedAgain(ViewOf(s, k), k, env, now, multiset(ids[1..])[k]);
      SweepView(s1, ids[1..], env, now, k);
    }
  }

  lemma VisitedAgain(v: View, k: JobId, env: Surroundings, now: int, n: nat)
    ensures n < v.listed ==>
      var u := Visited(v, k, env, now, 1);
      n <= u.listed && Visited(u, k, env, now, n) == Visited(v, k, env, now, n + 1)
  {
  }

  /** First seen more than a minute ago, and at most a day. */
  predicate Overdue(s: State, id: JobId, now: int) {
    id in s.seen && 60 < now - s.seen[id] < 24 * 3600
  }

  /** A sweep gives up on a job exactly when it is stuck there and was first seen more
      than a minute ago. Ids without a job are dropped; nothing else leaves the list. */
  lemma HandledExactly(s: State, env: Surroundings, now: int, id: JobId)
    requires id !in s.handled
    ensures var t := Sweep(s, env, now);
      && (id in t.handled <==> id in s.ids && Stuck(id, env) && Overdue(s, id, now))
      && (id in s.ids && id !in t.ids <==>
            id in s.ids && id !in env.started && (id in env.jobs ==> Overdue(s, id, now)))
  {
    SweepView(s, s.ids, env, now, id);
    var t := Sweep(s, env, now);
    assert ViewOf(t, id).listed == multiset(t.ids)[id];
  }

  // ---------- Many sweeps ----------

  /** A sweep with what it finds around it. */
  datatype Pass = Pass(env: Surroundings, time: int)

  function Sweeps(s: State, passes: seq<Pass>): State
    decreases |passes|
  {
    if passes == [] then s else Sweeps(Sweep(s, passes[0].env, passes[0].time), passes[1..])
  }

  /** Once seen, a job that stays stuck is given up by the first sweep more than a minute
      later and by no earlier one, as long as the key has not expired. */
  lemma {:induction false} HandledInTime(s: State, passes: seq<Pass>, id: JobId)
    requires id in s.ids && id !in s.handled && id in s.seen
    requires forall p :: p in passes ==> Stuck(id, p.env) && p.time < s.seen[id] + 24 * 3600
    ensures id in Sweeps(s, passes).handled <==> exists p :: p in passes && p.time - s.seen[id] > 60
    decreases |passes|
  {
    if passes != [] {
      var p := passes[0];
      var t := Sweep(s, p.env, p.time);
      SweepView(s, s.ids, p.env, p.time, id);
      assert p in passes && forall x :: x in passes <==> x == p || x in passes[1..];
      assert ViewOf(t, id) == Visited(ViewOf(s, id), id, p.env, p.time, multiset(s.ids)[id]);
      if p.time - s.seen[id] > GRACE {
        assert ViewOf(t, id).handled;
        StaysHandled(t, passes[1..], id);
      } else {
        assert ViewOf(t, id) == ViewOf(s, id);
        SameView(s, t, id);
        HandledInTime(t, passes[1..], id);
      }
    }
  }

  lemma SameView(s: State, t: State, k: JobId)
    requires ViewOf(s, k) == ViewOf(t, k)
    ensures (k in s.ids <==> k in t.ids) && (k in s.handled <==> k in t.handled)
    ensures (k in s.seen <==> k in t.seen) && (k in s.seen ==> s.seen[k] == t.seen[k])
  {
    assert multiset(s.ids)[k] == multiset(t.ids)[k];
  }

  lemma {:induction false} StaysHandled(s: State, passes: seq<Pass>, id: JobId)
    requires id in s.handled
    ensures id in Sweeps(s, passes).handled
    decreases |passes|
  {
    if passes != [] {
      SweepView(s, s.ids, passes[0].env, passes[0].time, id);
      assert ViewOf(Sweep(s, passes[0].env, passes[0].time), id).handled;
      StaysHandled(Sweep(s, passes[0].env, passes[0].time), passes[1..], id);
    }
  }

  /** A job that has entered the list is left alone for a minute from the first sweep that
      finds it, if and only if no earlier key of its id is left by then. */
  lemma GraceExactly(s: State, first: Pass, second: Pass, id: JobId)
    requires id in s.ids && id !in s.handled && Stuck(id, first.env) && Stuck(id, second.env)
    requires second.time == first.time + 60 && (id in s.seen ==> s.seen[id] <= first.time)
    ensures id !in Sweeps(s, [first, second]).handled
      <==> id !in s.seen || s.seen[id] + 24 * 3600 <= first.time || s.seen[id] == first.time
  {
    var t := Sweep(s, first.env, first.time);
    SweepView(s, s.ids, first.env, first.time, id);
    assert [first, second][1..] == [second];
    assert ViewOf(t, id) == Visited(ViewOf(s, id), id, first.env, first.time, multiset(s.ids)[id]);
    if Overdue(s, id, first.time) {
      assert ViewOf(t, id).handled;
      StaysHandled(t, [second], id);
    } else {
      assert ViewOf(t, id).listed == multiset(t.ids)[id] && ViewOf(t, id).key.Some?;
      assert second in [second];
      HandledInTime(t, [second], id);
    }
  }
}
