/** The heartbeats a worker sends while its work horse runs
    (rq/worker/worker_classes.py, rq/worker/base.py, rq/executions.py, rq/registry.py). */
module Heartbeat {
  import opened Common

  /** Python's int() of a float: towards zero. */
  function Truncate(x: real): int {
    if x >= 0.0 then x.Floor else -((-x).Floor)
  }

  function Min(x: real, y: real): real {
    if y < x then y else x
  }

  /** `get_heartbeat_ttl`. */
  function HeartbeatTtl(timeout: Option<int>, workingTime: real, interval: int): int {
    if timeout.Some? && timeout.value > 0 then
      Truncate(Min(timeout.value as real - workingTime, interval as real)) + 60
    else interval + 60
  }

  /** The monitor's own limit: one minute of grace; -1 means no limit. */
  predicate Overdue(timeout: int, workingTime: real) {
    timeout != -1 && workingTime > timeout as real + 60.0
  }

  /** A score in the started registry. */
  datatype Score = At(time: int) | Infinity

  /** `add_execution`: timestamps are whole seconds, and a ttl of -1 means forever. */
  function ScoreFor(now: real, ttl: int): Score {
    if ttl < 0 then (if ttl == -1 then Infinity else At(ttl)) else At(now.Floor + ttl)
  }

  /** `get_expired_job_ids`, at some later time. */
  predicate Expired(score: Score, now: real) {
    score.At? && 0 <= score.time <= now.Floor
  }

  // ---------- What the kill check is for ----------

  lemma TruncateBounds(x: real)
    ensures x >= 0.0 ==> Truncate(x) as real <= x < Truncate(x) as real + 1.0
    ensures x <= 0.0 ==> Truncate(x) as real - 1.0 < x <= Truncate(x) as real
  {
  }

  /** Past the kill check the ttl is between 0 and interval + 60, and 0 only when the job
      has used its timeout and the grace minute to the second. */
  lemma TtlWithinBounds(timeout: int, workingTime: real, interval: int)
    requires interval > 0 && timeout > 0 && workingTime >= 0.0
    requires !Overdue(timeout, workingTime)
    ensures 0 <= HeartbeatTtl(Some(timeout), workingTime, interval) <= interval + 60
    ensures HeartbeatTtl(Some(timeout), workingTime, interval) == 0 <==> workingTime == timeout as real + 60.0
  {
    TruncateBounds(Min(timeout as real - workingTime, interval as real));
  }

  ghost predicate NeverExpires(score: Score) {
    forall t: real :: !Expired(score, t)
  }

  /** Without the check the ttl could be negative, exactly from 61 seconds over the
      timeout on, and an entry refreshed with such a ttl would never expire: -1 stands
      for infinity, and other negative scores are below the range that is looked at. */
  lemma NeverExpiresExactlyWhenLate(timeout: int, workingTime: real, interval: int, now: real)
    requires interval > 0 && timeout > 0 && workingTime >= 0.0 && now >= 0.0
    ensures var ttl := HeartbeatTtl(Some(timeout), workingTime, interval);
      && (ttl < 0 <==> workingTime >= timeout as real + 61.0)
      && (NeverExpires(ScoreFor(now, ttl)) <==> workingTime >= timeout as real + 61.0)
  {
    var ttl := HeartbeatTtl(Some(timeout), workingTime, interval);
    TruncateBounds(Min(timeout as real - workingTime, interval as real));
    if ttl >= 0 {
      var t := (now.Floor + ttl) as real;
      assert t.Floor == now.Floor + ttl;
      assert Expired(ScoreFor(now, ttl), t);
    }
  }

  // ---------- Whether an entry lasts until the next refresh ----------

  /** The entry refreshed at `now` has not expired at any time up to the next planned
      refresh, `interval` seconds later. */
  ghost predicate Lasts(now: real, ttl: int, interval: int) {
    forall t: real :: now <= t < now + interval as real ==> !Expired(ScoreFor(now, ttl), t)
  }

  predicate Whole(x: real) {
    x == x.Floor as real
  }

  /** Scores are whole seconds, so an entry lasts if its ttl is longer than the interval,
      or as long and set at a whole second. */
  lemma LastsExactly(now: real, ttl: int, interval: int)
    requires interval > 0 && ttl >= 0 && now >= 0.0
    ensures Lasts(now, ttl, interval) <==> ttl > interval || (ttl == interval && Whole(now))
  {
    if ttl < interval || (ttl == interval && !Whole(now)) {
      var t := if ttl == 0 then now else (now.Floor + ttl) as real;
      assert t.Floor == now.Floor + ttl;
      assert Expired(ScoreFor(now, ttl), t);
    }
  }

  /** The whole seconds that must remain of the timeout for the entry to last; negative
      ones are seconds of the grace minute. */
  function Needed(interval: int, whole: bool): int {
    interval - (if whole then 60 else 59)
  }

  /** Rounding is towards zero: seconds that remain count when they are full, seconds
      over the timeout only when they are over. */
  predicate InTime(timeout: int, workingTime: real, interval: int, whole: bool) {
    var n := Needed(interval, whole);
    if n > 0 then workingTime <= (timeout - n) as real else workingTime < (timeout - n + 1) as real
  }

  /** When an entry refreshed by the monitor lasts until the next planned refresh. With
      an interval below a minute that is so up to 60 - interval seconds over the timeout,
      and one more at a whole second; with a longer one it stops before the timeout. */
  lemma RefreshLastsExactly(timeout: int, workingTime: real, interval: int, now: real)
    requires interval > 0 && timeout > 0 && workingTime >= 0.0 && now >= 0.0
    requires !Overdue(timeout, workingTime)
    ensures Lasts(now, HeartbeatTtl(Some(timeout), workingTime, interval), interval)
      <==> InTime(timeout, workingTime, interval, Whole(now))
  {
    TtlWithinBounds(timeout, workingTime, interval);
    LastsExactly(now, HeartbeatTtl(Some(timeout), workingTime, interval), interval);
    EnoughRemains(timeout as real - workingTime, interval, Needed(interval, Whole(now)));
  }

  lemma EnoughRemains(remaining: real, interval: int, n: int)
    requires interval > 0 && n <= interval
    ensures Truncate(Min(remaining, interval as real)) >= n
      <==> if n > 0 then remaining >= n as real else remaining > (n - 1) as real
  {
    TruncateBounds(Min(remaining, interval as real));
  }

  /** Jobs without a timeout are always safe. */
  lemma LastsWithoutTimeout(timeout: Option<int>, workingTime: real, interval: int, now: real)
    requires interval > 0 && now >= 0.0 && (timeout.Some? ==> timeout.value <= 0)
    ensures Lasts(now, HeartbeatTtl(timeout, workingTime, interval), interval)
  {
    LastsExactly(now, interval + 60, interval);
  }

  // ---------- The monitor loop ----------

  /** How one wait for the horse ends, and when. */
  datatype Wait = Exited | TimedOut(at: real) | Interrupted(at: real) | OSError

  datatype Refresh = Refresh(at: real, ttl: int)

  datatype Outcome = HorseExited | Killed(at: real) | Raised | TypeError | StillRunning

  /** The refreshes sent and how it ends, for the waits in their order. */
  function Monitored(timeout: Option<int>, interval: int, startedAt: real, waits: seq<Wait>): (seq<Refresh>, Outcome) {
    if waits == [] then ([], StillRunning)
    else
      match waits[0]
      case Exited => ([], HorseExited)
      case OSError => ([], Raised)
      case Interrupted(_) => Monitored(timeout, interval, startedAt, waits[1..])
      case TimedOut(at) =>
        if timeout.None? then ([], TypeError)
        else if Overdue(timeout.value, at - startedAt) then ([], Killed(at))
        else
          var rest := Monitored(timeout, interval, startedAt, waits[1..]);
          ([Refresh(at, HeartbeatTtl(timeout, at - startedAt, interval))] + rest.0, rest.1)
  }

  predicate Later(waits: seq<Wait>, startedAt: real) {
    forall w :: w in waits && w.TimedOut? ==> w.at >= startedAt
  }

  /** Every refresh the monitor sends, however long it runs, has a ttl in range, and its
      entry gets a finite score. */
  lemma {:induction false} RefreshesInRange(timeout: int, interval: int, startedAt: real, waits: seq<Wait>)
    requires interval > 0 && (timeout > 0 || timeout == -1) && Later(waits, startedAt)
    ensures forall r :: r in Monitored(Some(timeout), interval, startedAt, waits).0 ==>
      0 <= r.ttl <= interval + 60 && ScoreFor(r.at, r.ttl).At?
    ensures forall r :: r in Monitored(Some(timeout), interval, startedAt, waits).0 ==>
      (r.ttl == 0 <==> timeout != -1 && r.at - startedAt == timeout as real + 60.0)
  {
    if waits != [] {
      RefreshesInRange(timeout, interval, startedAt, waits[1..]);
      if waits[0].TimedOut? && timeout > 0 && !Overdue(timeout, waits[0].at - startedAt) {
        TtlWithinBounds(timeout, waits[0].at - startedAt, interval);
      }
    }
  }

  /** The horse is killed at the first wait that ends more than a minute over the timeout,
      if it has not exited before, and otherwise never. */
  lemma {:induction false} KilledExactly(timeout: int, interval: int, startedAt: real, waits: seq<Wait>, at: real)
    ensures Monitored(Some(timeout), interval, startedAt, waits).1 == Killed(at)
      <==> exists k :: KilledAt(timeout, startedAt, waits, at, k)
  {
    if waits != [] && timeout != -1 {
      KilledExactly(timeout, interval, startedAt, waits[1..], at);
      if waits[0].Interrupted? || (waits[0].TimedOut? && waits[0].at - startedAt <= timeout as real + 60.0) {
        KilledLater(timeout, startedAt, waits, at);
      } else if waits[0] == TimedOut(at) {
        assert KilledAt(timeout, startedAt, waits, at, 0);
      }
    } else if waits != [] {
      KilledExactly(timeout, interval, startedAt, waits[1..], at);
    }
  }

  /** Wait k is over by more than a minute, and none before it; -1 is no timeout. */
  ghost predicate KilledAt(timeout: int, startedAt: real, waits: seq<Wait>, at: real, k: int) {
    && 0 <= k < |waits| && waits[k] == TimedOut(at) && timeout != -1 && at - startedAt > timeout as real + 60.0
    && forall l :: 0 <= l < k ==>
         waits[l].Interrupted? || (waits[l].TimedOut? && waits[l].at - startedAt <= timeout as real + 60.0)
  }

  lemma KilledLater(timeout: int, startedAt: real, waits: seq<Wait>, at: real)
    requires waits != []
    requires timeout != -1
    requires waits[0].Interrupted? || (waits[0].TimedOut? && waits[0].at - startedAt <= timeout as real + 60.0)
    ensures (exists k :: KilledAt(timeout, startedAt, waits, at, k))
      <==> exists k :: KilledAt(timeout, startedAt, waits[1..], at, k)
  {
    if k :| KilledAt(timeout, startedAt, waits, at, k) {
      assert forall l :: 0 <= l < k - 1 ==> waits[1..][l] == waits[l + 1];
      assert KilledAt(timeout, startedAt, waits[1..], at, k - 1);
    }
    if k :| KilledAt(timeout, startedAt, waits[1..], at, k) {
      assert forall l :: 1 <= l < k + 1 ==> waits[l] == waits[1..][l - 1];
      assert KilledAt(timeout, startedAt, waits, at, k + 1);
    }
  }

  /** Which of the refreshes last until the next planned one, over the whole run. */
  lemma {:induction false} EntriesLastExactly(timeout: int, interval: int, startedAt: real, waits: seq<Wait>)
    requires interval > 0 && (timeout > 0 || timeout == -1) && startedAt >= 0.0 && Later(waits, startedAt)
    ensures forall r :: r in Monitored(Some(timeout), interval, startedAt, waits).0 ==>
      (Lasts(r.at, r.ttl, interval) <==> timeout == -1 || InTime(timeout, r.at - startedAt, interval, Whole(r.at)))
  {
    if waits != [] {
      EntriesLastExactly(timeout, interval, startedAt, waits[1..]);
      if waits[0].TimedOut? {
        var at := waits[0].at;
        if timeout == -1 {
          LastsWithoutTimeout(Some(timeout), at - startedAt, interval, at);
        } else if !Overdue(timeout, at - startedAt) {
          RefreshLastsExactly(timeout, at - startedAt, interval, at);
        }
      }
    }
  }

  /** In particular all of those within the timeout do, with an interval below a minute. */
  lemma EntriesLast(timeout: int, interval: int, startedAt: real, waits: seq<Wait>)
    requires 0 < interval < 60 && (timeout > 0 || timeout == -1) && startedAt >= 0.0 && Later(waits, startedAt)
    ensures forall r :: r in Monitored(Some(timeout), interval, startedAt, waits).0 ==>
      (timeout == -1 || r.at - startedAt <= timeout as real ==> Lasts(r.at, r.ttl, interval))
  {
    EntriesLastExactly(timeout, interval, startedAt, waits);
  }

  class Worker {
    const interval: int
    const workerTtl: int
    var currentJobWorkingTime: real
    var lastHeartbeat: real
    var keyTtl: int // of the worker's own key
    var startedRegistry: Option<Score> // of the job being executed
    var refreshes: seq<Refresh>
    var horseAlive: bool

    constructor (interval: int, workerTtl: int, entry: Score)
      ensures this.interval == interval && this.workerTtl == workerTtl && startedRegistry == Some(entry) && refreshes == [] && horseAlive
    {
      this.interval, this.workerTtl := interval, workerTtl;
      currentJobWorkingTime, lastHeartbeat, keyTtl := 0.0, 0.0, workerTtl;
      startedRegistry, refreshes, horseAlive := Some(entry), [], true;
    }

    method SendHeartbeat(now: real, ttl: int)
      modifies this`lastHeartbeat, this`keyTtl
      ensures lastHeartbeat == now && keyTtl == ttl
    {
      lastHeartbeat, keyTtl := now, ttl;
    }

    /** Only an entry that still exists is refreshed (ZADD with XX). */
    method MaintainHeartbeats(timeout: Option<int>, now: real)
      modifies this`lastHeartbeat, this`keyTtl, this`startedRegistry, this`refreshes
      ensures var ttl := HeartbeatTtl(timeout, currentJobWorkingTime, interval);
        && refreshes == old(refreshes) + [Refresh(now, ttl)]
        && startedRegistry == if old(startedRegistry).Some? then Some(ScoreFor(now, ttl)) else None
      ensures keyTtl == interval + 60 && lastHeartbeat == now
    {
      SendHeartbeat(now, interval + 60);
      var ttl := HeartbeatTtl(timeout, currentJobWorkingTime, interval);
      if startedRegistry.Some? { startedRegistry := Some(ScoreFor(now, ttl)); }
      refreshes := refreshes + [Refresh(now, ttl)];
    }

    /** The loop, for the waits as they come. The entry's score is that of the last
        refresh, and the horse is killed exactly in the outcome that says so. */
    method MonitorWorkHorse(timeout: Option<int>, startedAt: real, waits: seq<Wait>) returns (r: Outcome)
      requires startedRegistry.Some? && refreshes == [] && horseAlive
      modifies this
      ensures (refreshes, r) == Monitored(timeout, interval, startedAt, waits)
      ensures startedRegistry == if refreshes == [] then old(startedRegistry)
        else Some(ScoreFor(refreshes[|refreshes| - 1].at, refreshes[|refreshes| - 1].ttl))
      ensures horseAlive <==> !r.HorseExited? && !r.Killed?
      ensures r.HorseExited? || r.Killed? ==> currentJobWorkingTime == 0.0
    {
      var i := 0;
      assert waits[i..] == waits && refreshes + Monitored(timeout, interval, startedAt, waits).0
        == Monitored(timeout, interval, startedAt, waits).0;
      while i < |waits|
        invariant i <= |waits| && horseAlive
        invariant startedRegistry == if refreshes == [] then old(startedRegistry)
          else Some(ScoreFor(refreshes[|refreshes| - 1].at, refreshes[|refreshes| - 1].ttl))
        invariant var rest := Monitored(timeout, interval, startedAt, waits[i..]);
          (refreshes + rest.0, rest.1) == Monitored(timeout, interval, startedAt, waits)
      {
        var w := waits[i];
        assert refreshes + [] == refreshes;
        assert waits[i..][0] == w && waits[i..][1..] == waits[i + 1..];
        i := i + 1;
        match w
        case Exited =>
          horseAlive, currentJobWorkingTime := false, 0.0;
          return HorseExited;
        case OSError => return Raised;
        case Interrupted(at) => SendHeartbeat(at, workerTtl + 60);
        case TimedOut(at) =>
          currentJobWorkingTime := at - startedAt;
          if timeout.None? { return TypeError; }
          if timeout.value != -1 && currentJobWorkingTime > timeout.value as real + 60.0 {
            SendHeartbeat(at, interval + 60);
            horseAlive, currentJobWorkingTime := false, 0.0;
            return Killed(at);
          }
          ghost var before := refreshes;
          ghost var rest := Monitored(timeout, interval, startedAt, waits[i..]);
          MaintainHeartbeats(timeout, at);
          assert before + ([refreshes[|before|]] + rest.0) == refreshes + rest.0;
      }
      assert waits[i..] == [] && refreshes + [] == refreshes;
      return StillRunning;
    }
  }
}
