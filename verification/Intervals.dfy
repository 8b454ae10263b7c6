/** Waiting times between attempts: `Job.get_retry_interval`, `Retry.get_interval`
    (rq/job.py) and `Repeat.get_interval` (rq/repeat.py), and the sequences they
    produce over the whole life of a job. */
module Intervals {
  import opened Common

  // ---------- One interval ----------

  /** The index `get_retry_interval` computes; it may be past the end of []. */
  function RetryIndex(left: nat, n: nat): nat {
    if n >= left then n - left else 0
  }

  /** Exception retries: the interval for a job with `left` retries left. */
  function RetryInterval(left: nat, intervals: Option<seq<nat>>): nat
    requires left > 0
    requires intervals.Some? ==> intervals.value != []
  {
    if intervals.None? then 0 else intervals.value[RetryIndex(left, |intervals.value|)]
  }

  /** Exactly the empty list is indexed out of bounds. */
  lemma RetryIndexInBounds(left: nat, n: nat)
    requires left > 0
    ensures RetryIndex(left, n) < n <==> n > 0
  {
  }

  /** Returned Retry objects: the interval after `count` earlier ones. */
  function ReturnedInterval(count: nat, intervals: seq<nat>): nat {
    if intervals == [] then 0
    else intervals[if count < |intervals| - 1 then count else |intervals| - 1]
  }

  /** Repeats: `count` is the number of repeats still left after this one. */
  function RepeatInterval(count: nat, intervals: seq<nat>): nat
    requires intervals != []
  {
    if count >= |intervals| then intervals[|intervals| - 1] else intervals[count]
  }

  // ---------- A whole run of retries ----------

  function Copies(n: nat, x: nat): seq<nat> {
    seq(n, i => x)
  }

  /** The first interval often enough to leave one retry for each later one; the
      last m intervals if there are more intervals than retries. */
  function RetryPlan(m: nat, intervals: seq<nat>): seq<nat>
    requires intervals != []
  {
    var n := |intervals|;
    if m >= n then Copies(m - n, intervals[0]) + intervals else intervals[n - m..]
  }

  /** A list to its end, then its last entry over and over. */
  function Padded(t: nat, intervals: seq<nat>): seq<nat>
    requires intervals != []
  {
    var n := |intervals|;
    if t >= n then intervals + Copies(t - n, intervals[n - 1]) else intervals[..t]
  }

  /** The waits of a job that fails until its m retries are used up. */
  function RetryWaits(m: nat, intervals: seq<nat>): seq<nat>
    requires intervals != []
  {
    if m == 0 then [] else [RetryInterval(m, Some(intervals))] + RetryWaits(m - 1, intervals)
  }

  lemma PlanStep(m: nat, intervals: seq<nat>)
    requires intervals != [] && m > 0
    ensures RetryPlan(m, intervals) == [RetryInterval(m, Some(intervals))] + RetryPlan(m - 1, intervals)
  {
    var n := |intervals|;
    if m > n {
      CopiesStep(m - n, intervals[0]);
      assert [intervals[0]] + Copies(m - 1 - n, intervals[0]) + intervals
        == [intervals[0]] + (Copies(m - 1 - n, intervals[0]) + intervals);
    } else if m == n {
      assert Copies(0, intervals[0]) + intervals == intervals == [intervals[0]] + intervals[1..];
    } else {
      assert intervals[n - m..] == [intervals[n - m]] + intervals[n - m + 1..];
    }
  }

  lemma {:induction false} RetryWaitsArePlan(m: nat, intervals: seq<nat>)
    requires intervals != []
    ensures RetryWaits(m, intervals) == RetryPlan(m, intervals)
  {
    if m == 0 {
      assert RetryPlan(0, intervals) == [];
    } else {
      RetryWaitsArePlan(m - 1, intervals);
      PlanStep(m, intervals);
    }
  }

  lemma CopiesStep(k: nat, x: nat)
    requires k > 0
    ensures Copies(k, x) == [x] + Copies(k - 1, x)
  {
  }

  lemma PaddedSnoc(t: nat, intervals: seq<nat>)
    requires intervals != []
    ensures Padded(t + 1, intervals) == Padded(t, intervals) + [ReturnedInterval(t, intervals)]
  {
    var n := |intervals|;
    if t >= n {
      assert Copies(t + 1 - n, intervals[n - 1]) == Copies(t - n, intervals[n - 1]) + [intervals[n - 1]];
    } else if t + 1 == n {
      assert intervals == intervals[..t] + [intervals[t]];
      assert Copies(0, intervals[n - 1]) == [];
    }
  }

  /** The next wait is the last of those still to come. */
  lemma RepeatIntervalIsLast(t: nat, intervals: seq<nat>)
    requires intervals != [] && t > 0
    ensures RepeatInterval(t - 1, intervals) == Padded(t, intervals)[t - 1] == ReturnedInterval(t - 1, intervals)
  {
    PaddedSnoc(t - 1, intervals);
  }

  /** The waits of a job that succeeds until its t repeats are used up. */
  function RepeatWaits(t: nat, intervals: seq<nat>): seq<nat>
    requires intervals != []
  {
    if t == 0 then [] else [RepeatInterval(t - 1, intervals)] + RepeatWaits(t - 1, intervals)
  }

  /** Repeats use the padded or truncated list from the back. */
  lemma {:induction false} RepeatWaitsAreReversed(t: nat, intervals: seq<nat>)
    requires intervals != []
    ensures RepeatWaits(t, intervals) == Reverse(Padded(t, intervals))
  {
    if t == 0 {
      assert Padded(0, intervals) == [];
    } else {
      RepeatWaitsAreReversed(t - 1, intervals);
      PaddedSnoc(t - 1, intervals);
      ReverseSnoc(Padded(t - 1, intervals), ReturnedInterval(t - 1, intervals));
    }
  }

  lemma ReverseSnoc(xs: seq<nat>, x: nat)
    ensures Reverse(xs + [x]) == [x] + Reverse(xs)
  {
  }

  /** The fields of a job that retries and repeats change. */
  class Counters {
    var retriesLeft: nat
    var numberOfRetries: nat
    var repeatsLeft: nat

    constructor (retries: nat, repeats: nat)
      ensures retriesLeft == retries && numberOfRetries == 0 && repeatsLeft == repeats
    {
      retriesLeft, numberOfRetries, repeatsLeft := retries, 0, repeats;
    }

    /** One exception retry. */
    method Retry(intervals: Option<seq<nat>>) returns (interval: nat)
      requires retriesLeft > 0
      requires intervals.Some? ==> intervals.value != []
      modifies this`retriesLeft
      ensures retriesLeft == old(retriesLeft) - 1
      ensures interval == RetryInterval(old(retriesLeft), intervals)
    {
      interval := RetryInterval(retriesLeft, intervals);
      retriesLeft := retriesLeft - 1;
    }

    /** One returned Retry object. */
    method HandleRetryResult(intervals: seq<nat>) returns (interval: nat)
      modifies this`numberOfRetries
      ensures numberOfRetries == old(numberOfRetries) + 1
      ensures interval == ReturnedInterval(old(numberOfRetries), intervals)
    {
      interval := ReturnedInterval(numberOfRetries, intervals);
      numberOfRetries := numberOfRetries + 1;
    }

    /** One `Repeat.schedule`. */
    method Repeat(intervals: seq<nat>) returns (interval: nat)
      requires repeatsLeft > 0
      modifies this`repeatsLeft
      ensures repeatsLeft == old(repeatsLeft) - 1
      ensures interval == if intervals == [] then 0 else RepeatInterval(old(repeatsLeft) - 1, intervals)
    {
      interval := 0;
      if intervals != [] { interval := RepeatInterval(repeatsLeft - 1, intervals); }
      repeatsLeft := repeatsLeft - 1;
    }

    /** Every attempt fails until no retry is left. */
    method FailUntilGivenUp(intervals: seq<nat>) returns (waits: seq<nat>)
      requires intervals != []
      modifies this`retriesLeft
      ensures retriesLeft == 0
      ensures waits == RetryPlan(old(retriesLeft), intervals)
    {
      waits := [];
      while retriesLeft > 0
        invariant waits + RetryWaits(retriesLeft, intervals) == RetryWaits(old(retriesLeft), intervals)
        decreases retriesLeft
      {
        var wait := Retry(Some(intervals));
        waits := waits + [wait];
      }
      RetryWaitsArePlan(old(retriesLeft), intervals);
    }

    /** The job returns the same Retry object t times. */
    method ReturnRetries(t: nat, intervals: seq<nat>) returns (waits: seq<nat>)
      requires intervals != [] && numberOfRetries == 0
      modifies this`numberOfRetries
      ensures numberOfRetries == t
      ensures waits == Padded(t, intervals)
    {
      waits := [];
      assert Padded(0, intervals) == [];
      while numberOfRetries < t
        invariant numberOfRetries <= t
        invariant waits == Padded(numberOfRetries, intervals)
      {
        PaddedSnoc(numberOfRetries, intervals);
        var wait := HandleRetryResult(intervals);
        waits := waits + [wait];
      }
    }

    /** Every attempt succeeds until no repeat is left: the intervals are used from
        the back of the padded or truncated list. */
    method RepeatUntilDone(intervals: seq<nat>) returns (waits: seq<nat>)
      requires intervals != []
      modifies this`repeatsLeft
      ensures repeatsLeft == 0
      ensures waits == Reverse(Padded(old(repeatsLeft), intervals))
    {
      waits := [];
      while repeatsLeft > 0
        invariant waits + RepeatWaits(repeatsLeft, intervals) == RepeatWaits(old(repeatsLeft), intervals)
        decreases repeatsLeft
      {
        var wait := Repeat(intervals);
        waits := waits + [wait];
      }
      RepeatWaitsAreReversed(old(repeatsLeft), intervals);
    }
  }
}
