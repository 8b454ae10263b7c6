/** The timed locks that keep two schedulers off one queue (rq/scheduler.py): any
    number of schedulers, a Redis that drops expired keys, and a discrete clock. */
module SchedulerLocks {
  import opened Common

  type SchedulerId = nat

  /** The lock key of one queue name. `owner` is the process id stored as its value;
      nothing but SET NX ever looks at the key before writing it. */
  datatype Lock = Lock(owner: SchedulerId, expiry: nat)

  /** A scheduler process. `todo` and `successful` belong to `acquire_locks`, which
      takes one name at a time and only then adds them to `acquired`. `refreshed` is
      history: when each name was last acquired or refreshed. */
  datatype Scheduler = Scheduler(
    names: set<QueueName>,
    interval: nat,
    running: bool,
    acquiring: bool,
    todo: set<QueueName>,
    successful: set<QueueName>,
    acquired: set<QueueName>,
    refreshed: map<QueueName, nat>)
  {
    function Ttl(): nat {
      interval + 60
    }

    /** The names it believes it holds. */
    function Holds(): set<QueueName> {
      acquired + successful
    }
  }

  datatype System = System(now: nat, locks: map<QueueName, Lock>, schedulers: map<SchedulerId, Scheduler>)

  datatype Event =
    | Boot(i: SchedulerId, names: set<QueueName>, interval: nat)
    | BeginAcquire(i: SchedulerId)
    | TryName(i: SchedulerId, n: QueueName)
    | EndAcquire(i: SchedulerId)
    | Heartbeat(i: SchedulerId)
    | Stop(i: SchedulerId)
    | Crash(i: SchedulerId)
    | Tick(d: nat)

  /** The key exists: it was set and has not expired. */
  predicate Present(locks: map<QueueName, Lock>, now: nat, n: QueueName) {
    n in locks && now < locks[n].expiry
  }

  /** EXPIRE on each of the names: only keys that exist are touched, whoever set them. */
  function Expire(locks: map<QueueName, Lock>, now: nat, names: set<QueueName>, ttl: nat): map<QueueName, Lock> {
    map n | n in locks :: if n in names && Present(locks, now, n) then locks[n].(expiry := now + ttl) else locks[n]
  }

  /** DEL of each of the names' keys, whoever set them. */
  function Delete(locks: map<QueueName, Lock>, names: set<QueueName>): map<QueueName, Lock> {
    map n | n in locks && n !in names :: locks[n]
  }

  function AllRefreshed(refreshed: map<QueueName, nat>, names: set<QueueName>, now: nat): map<QueueName, nat> {
    map n | n in refreshed.Keys + names :: if n in names then now else refreshed[n]
  }

  predicate Running(s: System, i: SchedulerId) {
    i in s.schedulers && s.schedulers[i].running
  }

  predicate Enabled(s: System, e: Event) {
    match e
    case Boot(i, _, _) => i !in s.schedulers
    case BeginAcquire(i) => Running(s, i) && !s.schedulers[i].acquiring
    case TryName(i, n) => Running(s, i) && s.schedulers[i].acquiring && n in s.schedulers[i].todo
    case EndAcquire(i) => Running(s, i) && s.schedulers[i].acquiring && s.schedulers[i].todo == {}
    case Heartbeat(i) => Running(s, i) && !s.schedulers[i].acquiring
    case Stop(i) => Running(s, i) && !s.schedulers[i].acquiring
    case Crash(i) => Running(s, i)
    case Tick(d) => true
  }

  function Apply(s: System, e: Event): System
    requires Enabled(s, e)
  {
    match e
    case Boot(i, names, interval) =>
      s.(schedulers := s.schedulers[i := Scheduler(names, interval, true, false, {}, {}, {}, map[])])
    case BeginAcquire(i) =>
      var c := s.schedulers[i];
      s.(schedulers := s.schedulers[i := c.(acquiring := true, todo := c.names, successful := {})])
    case TryName(i, n) =>
      var c := s.schedulers[i].(todo := s.schedulers[i].todo - {n});
      if Present(s.locks, s.now, n) then s.(schedulers := s.schedulers[i := c])
      else s.(locks := s.locks[n := Lock(i, s.now + c.Ttl())],
              schedulers := s.schedulers[i := c.(successful := c.successful + {n}, refreshed := c.refreshed[n := s.now])])
    case EndAcquire(i) =>
      var c := s.schedulers[i];
      s.(schedulers := s.schedulers[i := c.(acquiring := false, acquired := c.acquired + c.successful, successful := {})])
    case Heartbeat(i) =>
      var c := s.schedulers[i];
      s.(locks := Expire(s.locks, s.now, c.acquired, c.Ttl()),
         schedulers := s.schedulers[i := c.(refreshed := AllRefreshed(c.refreshed, c.acquired, s.now))])
    case Stop(i) =>
      var c := s.schedulers[i];
      s.(locks := Delete(s.locks, c.acquired), schedulers := s.schedulers[i := c.(running := false, acquired := {})])
    case Crash(i) => s.(schedulers := s.schedulers[i := s.schedulers[i].(running := false)])
    case Tick(d) => s.(now := s.now + d)
  }

  const Initial := System(0, map[], map[])

  predicate Possible(s: System, es: seq<Event>)
    decreases |es|
  {
    es == [] || (Enabled(s, es[0]) && Possible(Apply(s, es[0]), es[1..]))
  }

  function Final(s: System, es: seq<Event>): System
    requires Possible(s, es)
    decreases |es|
  {
    if es == [] then s else Final(Apply(s, es[0]), es[1..])
  }

  // ---------- The assumption: locks are refreshed in time ----------

  /** Less than interval + 60 seconds have passed since the scheduler last acquired
      or refreshed the name. */
  predicate Recent(s: System, i: SchedulerId, n: QueueName) {
    && i in s.schedulers && n in s.schedulers[i].refreshed
    && s.now < s.schedulers[i].refreshed[n] + s.schedulers[i].interval + 60
  }

  ghost predicate Timely(s: System) {
    forall i, n :: Running(s, i) && n in s.schedulers[i].Holds() ==> Recent(s, i, n)
  }

  ghost predicate TimelyRun(s: System, es: seq<Event>)
    requires Possible(s, es)
    decreases |es|
  {
    Timely(s) && (es == [] || TimelyRun(Apply(s, es[0]), es[1..]))
  }

  // ---------- The invariant ----------

  predicate Owns(s: System, i: SchedulerId, n: QueueName) {
    n in s.locks && s.locks[n].owner == i
  }

  /** A running scheduler's names carry its own lock. */
  ghost predicate HeldAreOwned(s: System) {
    forall i, n :: Running(s, i) && n in s.schedulers[i].Holds() ==> Owns(s, i, n)
  }

  /** A lock expires one ttl after its owner last acquired or refreshed it. */
  predicate ExpiresOnTime(s: System, n: QueueName) {
    n in s.locks ==>
      var l := s.locks[n];
      && l.owner in s.schedulers && n in s.schedulers[l.owner].refreshed
      && l.expiry == s.schedulers[l.owner].refreshed[n] + s.schedulers[l.owner].Ttl()
  }

  ghost predicate LocksExpireOnTime(s: System) {
    forall n :: ExpiresOnTime(s, n)
  }

  ghost predicate Invariant(s: System) {
    HeldAreOwned(s) && LocksExpireOnTime(s) && Timely(s)
  }

  lemma HeldIsPresent(s: System, i: SchedulerId, n: QueueName)
    requires Invariant(s) && Running(s, i) && n in s.schedulers[i].Holds()
    ensures Owns(s, i, n) && Present(s.locks, s.now, n)
  {
    assert ExpiresOnTime(s, n) && Recent(s, i, n) && Owns(s, i, n);
  }

  lemma TryNameKeeps(s: System, e: Event)
    requires Invariant(s) && Enabled(s, e) && e.TryName?
    ensures HeldAreOwned(Apply(s, e)) && LocksExpireOnTime(Apply(s, e))
  {
    var t := Apply(s, e);
    forall i, n | Running(t, i) && n in t.schedulers[i].Holds() ensures Owns(t, i, n) {
      if i != e.i || n in s.schedulers[i].Holds() { HeldIsPresent(s, i, n); }
    }
    forall n ensures ExpiresOnTime(t, n) {
      assert ExpiresOnTime(s, n);
    }
  }

  lemma HeartbeatKeeps(s: System, e: Event)
    requires Invariant(s) && Enabled(s, e) && e.Heartbeat?
    ensures HeldAreOwned(Apply(s, e)) && LocksExpireOnTime(Apply(s, e))
  {
    var t := Apply(s, e);
    forall i, n | Running(t, i) && n in t.schedulers[i].Holds() ensures Owns(t, i, n) {
      HeldIsPresent(s, i, n);
    }
    forall n ensures ExpiresOnTime(t, n) {
      assert ExpiresOnTime(s, n);
      if n in s.schedulers[e.i].acquired { HeldIsPresent(s, e.i, n); }
    }
  }

  lemma StopKeeps(s: System, e: Event)
    requires Invariant(s) && Enabled(s, e) && e.Stop?
    ensures HeldAreOwned(Apply(s, e)) && LocksExpireOnTime(Apply(s, e))
  {
    var t := Apply(s, e);
    forall i, n | Running(t, i) && n in t.schedulers[i].Holds() ensures Owns(t, i, n) {
      HeldIsPresent(s, i, n);
      if n in s.schedulers[e.i].acquired { HeldIsPresent(s, e.i, n); }
    }
    forall n ensures ExpiresOnTime(t, n) {
      assert ExpiresOnTime(s, n);
    }
  }

  lemma OthersKeep(s: System, e: Event)
    requires Invariant(s) && Enabled(s, e) && !e.TryName? && !e.Heartbeat? && !e.Stop?
    ensures HeldAreOwned(Apply(s, e)) && LocksExpireOnTime(Apply(s, e))
  {
    var t := Apply(s, e);
    forall i, n | Running(t, i) && n in t.schedulers[i].Holds() ensures Owns(t, i, n) {
      assert n in s.schedulers[i].Holds() && Owns(s, i, n);
    }
    forall n ensures ExpiresOnTime(t, n) {
      assert ExpiresOnTime(s, n);
    }
  }

  lemma StepKeeps(s: System, e: Event)
    requires Invariant(s) && Enabled(s, e) && Timely(Apply(s, e))
    ensures Invariant(Apply(s, e))
  {
    if e.TryName? { TryNameKeeps(s, e); }
    else if e.Heartbeat? { HeartbeatKeeps(s, e); }
    else if e.Stop? { StopKeeps(s, e); }
    else { OthersKeep(s, e); }
  }

  lemma {:induction false} RunKeeps(s: System, es: seq<Event>)
    requires Invariant(s) && Possible(s, es) && TimelyRun(s, es)
    ensures Invariant(Final(s, es))
    decreases |es|
  {
    if es != [] {
      StepKeeps(s, es[0]);
      RunKeeps(Apply(s, es[0]), es[1..]);
    }
  }

  /** No two running schedulers ever hold the same queue name. */
  lemma MutualExclusion(es: seq<Event>, i: SchedulerId, k: SchedulerId, n: QueueName)
    requires Possible(Initial, es) && TimelyRun(Initial, es)
    requires var s := Final(Initial, es); Running(s, i) && Running(s, k) && i != k
    ensures var s := Final(Initial, es); !(n in s.schedulers[i].Holds() && n in s.schedulers[k].Holds())
  {
    RunKeeps(Initial, es);
    var s := Final(Initial, es);
    if n in s.schedulers[i].Holds() && n in s.schedulers[k].Holds() {
      HeldIsPresent(s, i, n);
      HeldIsPresent(s, k, n);
    }
  }

  /** The name is free for a scheduler exactly when the last owner's time is over (or
      it released the name): never while a running scheduler holds it, and at the
      latest interval + 60 seconds after a crashed owner's last refresh. */
  lemma AcquiredExactlyWhenFree(es: seq<Event>, i: SchedulerId, n: QueueName)
    requires Possible(Initial, es) && TimelyRun(Initial, es)
    requires Enabled(Final(Initial, es), TryName(i, n)) && n !in Final(Initial, es).schedulers[i].successful
    ensures var s := Final(Initial, es);
      n in Apply(s, TryName(i, n)).schedulers[i].successful <==> n !in s.locks || !Recent(s, s.locks[n].owner, n)
    ensures var s := Final(Initial, es);
      forall k :: Running(s, k) && n in s.schedulers[k].Holds()
        ==> n !in Apply(s, TryName(i, n)).schedulers[i].successful
  {
    RunKeeps(Initial, es);
    var s := Final(Initial, es);
    assert ExpiresOnTime(s, n);
    forall k | Running(s, k) && n in s.schedulers[k].Holds()
      ensures n !in Apply(s, TryName(i, n)).schedulers[i].successful
    {
      HeldIsPresent(s, k, n);
    }
  }

  // ---------- The bound is tight ----------

  /** The names run through by one undisturbed acquisition. */
  function AcquireOne(i: SchedulerId, n: QueueName): seq<Event> {
    [BeginAcquire(i), TryName(i, n), EndAcquire(i)]
  }

  /** A scheduler that lets the full interval + 60 seconds pass shares its queue. */
  lemma LateByNothing(i: SchedulerId, k: SchedulerId, n: QueueName, interval: nat)
    requires i != k
    ensures var es := [Boot(i, {n}, interval), Boot(k, {n}, interval)] + AcquireOne(i, n) + [Tick(interval + 60)] + AcquireOne(k, n);
      && Possible(Initial, es)
      && var s := Final(Initial, es);
         && Running(s, i) && n in s.schedulers[i].acquired && !s.schedulers[i].acquiring
         && Running(s, k) && n in s.schedulers[k].acquired && !s.schedulers[k].acquiring
  {
    var s2 := Apply(Apply(Initial, Boot(i, {n}, interval)), Boot(k, {n}, interval));
    var s5 := Acquired(s2, i, n);
    var s6 := Apply(s5, Tick(interval + 60));
    var s9 := Acquired(s6, k, n);
    var tail := [Tick(interval + 60)] + AcquireOne(k, n);
    AcquireOneRuns(s6, k, n, []);
    assert AcquireOne(k, n) + [] == AcquireOne(k, n);
    assert tail[1..] == AcquireOne(k, n);
    AcquireOneRuns(s2, i, n, tail);
    var es := [Boot(i, {n}, interval), Boot(k, {n}, interval)] + AcquireOne(i, n) + [Tick(interval + 60)] + AcquireOne(k, n);
    assert es[1..][1..] == AcquireOne(i, n) + tail;
    assert es[1..][0] == Boot(k, {n}, interval);
  }

  predicate CanAcquire(s: System, i: SchedulerId, n: QueueName) {
    Running(s, i) && !s.schedulers[i].acquiring && s.schedulers[i].names == {n} && !Present(s.locks, s.now, n)
  }

  function Acquired(s: System, i: SchedulerId, n: QueueName): System
    requires CanAcquire(s, i, n)
  {
    var c := s.schedulers[i];
    s.(locks := s.locks[n := Lock(i, s.now + c.Ttl())],
       schedulers := s.schedulers[i := c.(todo := {}, successful := {}, acquired := c.acquired + {n},
                                          refreshed := c.refreshed[n := s.now])])
  }

  lemma AcquireOneRuns(s: System, i: SchedulerId, n: QueueName, rest: seq<Event>)
    requires CanAcquire(s, i, n)
    requires Possible(Acquired(s, i, n), rest)
    ensures Possible(s, AcquireOne(i, n) + rest)
    ensures Final(s, AcquireOne(i, n) + rest) == Final(Acquired(s, i, n), rest)
  {
    var es := AcquireOne(i, n) + rest;
    var s1 := Apply(s, BeginAcquire(i));
    var s2 := Apply(s1, TryName(i, n));
    var s3 := Apply(s2, EndAcquire(i));
    assert es[1..] == [TryName(i, n), EndAcquire(i)] + rest;
    assert es[1..][1..] == [EndAcquire(i)] + rest;
    assert es[1..][1..][1..] == rest;
    assert {n} - {n} == {} && {} + {n} == {n};
    assert s3 == Acquired(s, i, n);
    assert Final(s2, es[1..][1..]) == Final(s3, rest);
    assert Final(s1, es[1..]) == Final(s3, rest);
  }
}
