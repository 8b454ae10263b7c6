/** Vocabulary shared by every model: job identifiers, job statuses and a few
    facts about Redis lists (sequences) and sets. */
module Common {

  /** Job ids and queue names only ever get compared, so naturals stand for them. */
  type JobId = nat
  type QueueName = nat

  datatype Option<+T> = None | Some(value: T)

  datatype JobStatus =
    | Created
    | Queued
    | Finished
    | Failed
    | Started
    | Deferred
    | Scheduled
    | Stopped
    | Canceled

  /** No later transition of a normal life leaves one of these. */
  predicate Terminal(st: JobStatus) {
    st == Finished || st == Failed || st == Stopped || st == Canceled
  }

  function ToSet<T(!new)>(xs: seq<T>): (r: set<T>)
    ensures forall x :: x in r <==> x in xs
  {
    set x | x in xs
  }

  predicate NoDup<T(==)>(xs: seq<T>) {
    forall i, j :: 0 <= i < j < |xs| ==> xs[i] != xs[j]
  }

  /** LREM key 1 x: drops the first occurrence, if there is one. */
  function RemoveFirst(xs: seq<JobId>, x: JobId): seq<JobId> {
    if xs == [] then []
    else if xs[0] == x then xs[1..]
    else [xs[0]] + RemoveFirst(xs[1..], x)
  }

  lemma {:induction false} RemoveFirstCount(xs: seq<JobId>, x: JobId)
    ensures multiset(RemoveFirst(xs, x)) == multiset(xs) - multiset{x}
  {
    if xs != [] {
      assert xs == [xs[0]] + xs[1..];
      if xs[0] != x { RemoveFirstCount(xs[1..], x); }
    }
  }

  lemma {:induction false} RemoveFirstOther(xs: seq<JobId>, x: JobId, y: JobId)
    requires y != x
    ensures y in RemoveFirst(xs, x) <==> y in xs
  {
    if xs != [] && xs[0] != x { RemoveFirstOther(xs[1..], x, y); }
  }

  /** LPUSH or RPUSH. */
  function Push(xs: seq<JobId>, j: JobId, front: bool): seq<JobId> {
    if front then [j] + xs else xs + [j]
  }

  /** LRANGE 0 -1: a missing key is an empty list. */
  function ListAt(m: map<QueueName, seq<JobId>>, q: QueueName): seq<JobId> {
    if q in m then m[q] else []
  }

  function Reverse<T>(xs: seq<T>): (r: seq<T>)
    ensures |r| == |xs|
    ensures forall i :: 0 <= i < |xs| ==> r[i] == xs[|xs| - 1 - i]
  {
    if xs == [] then [] else Reverse(xs[1..]) + [xs[0]]
  }

  /** One more push, with the earlier pushes to either end already in place. */
  lemma OnePush(fronts: seq<JobId>, backs: seq<JobId>, ids: seq<JobId>, id: JobId, front: bool)
    ensures Reverse(fronts) + Push(ids, id, front) + backs
         == Reverse((if front then [id] else []) + fronts) + ids + ((if !front then [id] else []) + backs)
  {
    if front {
      assert ([id] + fronts)[1..] == fronts;
      assert Reverse([id] + fronts) == Reverse(fronts) + [id];
      assert [] + backs == backs;
    } else {
      assert [] + fronts == fronts;
    }
  }

  lemma NoDupSplit<T>(xs: seq<T>, k: nat)
    requires NoDup(xs) && k < |xs|
    ensures NoDup(xs[k..]) && NoDup(xs[..k])
    ensures xs[k] !in xs[k + 1..] && xs[k] !in xs[..k]
  {
  }
}
