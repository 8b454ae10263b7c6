/** Dequeuing from several queues and rotating them round-robin (rq/queue.py,
    rq/worker/base.py, rq/worker/worker_classes.py), with other clients pushing,
    popping and deleting at any moment. */
module RoundRobin {
  import opened Common

  /** What the worker sees at one LPOP: the id it gets from the queue it asks, if any,
      and whether a job is found for that id afterwards. */
  datatype Reply = Reply(popped: Option<JobId>, found: bool)

  datatype Outcome = Waiting | Empty | Served(pos: nat, id: JobId)

  /** `dequeue_any` in the middle of a sweep, about to ask queue number `i` of `n`: an
      empty queue passes on to the next, a dead id starts the sweep again. */
  function Dequeue(n: nat, i: nat, replies: seq<Reply>): Outcome
    decreases |replies|
  {
    if i >= n then Empty
    else if replies == [] then Waiting
    else
      match replies[0].popped
      case None => Dequeue(n, i + 1, replies[1..])
      case Some(id) => if replies[0].found then Served(i, id) else Dequeue(n, 0, replies[1..])
  }

  /** Whenever queue number `t` is asked it has an id to give: it keeps holding a job. */
  predicate NeverEmpty(n: nat, i: nat, replies: seq<Reply>, t: nat)
    decreases |replies|
  {
    i >= n || replies == []
    || match replies[0].popped
       case None => i != t && NeverEmpty(n, i + 1, replies[1..], t)
       case Some(_) => replies[0].found || NeverEmpty(n, 0, replies[1..], t)
  }

  /** No later queue is served, and the call does not give up. */
  lemma {:induction false} ServedNoLater(n: nat, i: nat, replies: seq<Reply>, t: nat)
    requires i <= t < n && NeverEmpty(n, i, replies, t)
    ensures Dequeue(n, i, replies) != Empty
    ensures Dequeue(n, i, replies).Served? ==> Dequeue(n, i, replies).pos <= t
    decreases |replies|
  {
    if replies != [] {
      match replies[0].popped
      case None => ServedNoLater(n, i + 1, replies[1..], t);
      case Some(_) => if !replies[0].found { ServedNoLater(n, 0, replies[1..], t); }
    }
  }

  /** A served queue comes right behind the ones ahead of it: in the same sweep each of them
      has been asked and was empty. The sweep began with the call, or behind a dead id. */
  lemma {:induction false} AskedInOrder(n: nat, i: nat, replies: seq<Reply>) returns (k: nat)
    requires Dequeue(n, i, replies).Served?
    ensures k < |replies| && replies[k] == Reply(Some(Dequeue(n, i, replies).id), true)
    ensures var p := Dequeue(n, i, replies).pos;
      && p < n
      && ((p == i + k && forall l :: 0 <= l < k ==> replies[l].popped.None?)
          || (p < k && (forall l :: k - p <= l < k ==> replies[l].popped.None?)
              && replies[k - p - 1].popped.Some? && !replies[k - p - 1].found))
    decreases |replies|
  {
    match replies[0].popped
    case None =>
      var k' := AskedInOrder(n, i + 1, replies[1..]);
      k := k' + 1;
      assert forall l :: 1 <= l < |replies| ==> replies[l] == replies[1..][l - 1];
    case Some(_) =>
      if replies[0].found {
        k := 0;
      } else {
        var k' := AskedInOrder(n, 0, replies[1..]);
        k := k' + 1;
        assert forall l :: 1 <= l < |replies| ==> replies[l] == replies[1..][l - 1];
      }
  }

  /** `reorder_queues`: the served queue goes last, keeping the cyclic order. */
  function Rotate(order: seq<QueueName>, pos: nat): seq<QueueName>
    requires pos < |order|
  {
    order[pos + 1..] + order[..pos + 1]
  }

  /** One completed call after another, the queues rotated after each. */
  predicate AllServed(order: seq<QueueName>, calls: seq<seq<Reply>>)
    decreases |calls|
  {
    calls == [] ||
    var o := Dequeue(|order|, 0, calls[0]);
    o.Served? && o.pos < |order| && AllServed(Rotate(order, o.pos), calls[1..])
  }

  /** The queues served, call by call. */
  function ServedQueues(order: seq<QueueName>, calls: seq<seq<Reply>>): seq<QueueName>
    requires AllServed(order, calls)
    decreases |calls|
  {
    if calls == [] then []
    else
      var o := Dequeue(|order|, 0, calls[0]);
      [order[o.pos]] + ServedQueues(Rotate(order, o.pos), calls[1..])
  }

  function OrderAfter(order: seq<QueueName>, calls: seq<seq<Reply>>): seq<QueueName>
    requires AllServed(order, calls)
    decreases |calls|
  {
    if calls == [] then order
    else OrderAfter(Rotate(order, Dequeue(|order|, 0, calls[0]).pos), calls[1..])
  }

  // ---------- Always a rotation ----------

  function RotatedBy(order: seq<QueueName>, r: nat): seq<QueueName>
    requires r <= |order|
  {
    order[r..] + order[..r]
  }

  lemma RotateTwice(original: seq<QueueName>, r: nat, pos: nat)
    requires r < |original| && pos < |original|
    ensures var r' := if r + pos + 1 < |original| then r + pos + 1 else r + pos + 1 - |original|;
      r' < |original| && Rotate(RotatedBy(original, r), pos) == RotatedBy(original, r')
  {
    var n := |original|;
    var r' := if r + pos + 1 < n then r + pos + 1 else r + pos + 1 - n;
    var a, b := Rotate(RotatedBy(original, r), pos), RotatedBy(original, r');
    assert |a| == |b| == n;
    forall k | 0 <= k < n ensures a[k] == b[k] {
      var j := if k + pos + 1 < n then k + pos + 1 else k + pos + 1 - n;
      assert a[k] == RotatedBy(original, r)[j];
    }
  }

  /** However the calls turn out, the worker's list is a rotation of its queues. */
  lemma {:induction false} AlwaysARotation(original: seq<QueueName>, r: nat, calls: seq<seq<Reply>>) returns (r': nat)
    requires r < |original| && AllServed(RotatedBy(original, r), calls)
    ensures r' < |original| && OrderAfter(RotatedBy(original, r), calls) == RotatedBy(original, r')
    decreases |calls|
  {
    if calls == [] {
      r' := r;
    } else {
      var pos := Dequeue(|original|, 0, calls[0]).pos;
      RotateTwice(original, r, pos);
      var next := if r + pos + 1 < |original| then r + pos + 1 else r + pos + 1 - |original|;
      r' := AlwaysARotation(original, next, calls[1..]);
    }
  }

  // ---------- Bounded waiting ----------

  function Position(order: seq<QueueName>, q: QueueName): (p: nat)
    requires q in order
    ensures p < |order| && order[p] == q
  {
    if order[0] == q then 0 else 1 + Position(order[1..], q)
  }

  lemma {:induction false} PositionOf(order: seq<QueueName>, k: nat)
    requires NoDup(order) && k < |order|
    ensures Position(order, order[k]) == k
  {
    if order[0] != order[k] {
      assert order[1..][k - 1] == order[k];
      PositionOf(order[1..], k - 1);
    }
  }

  /** Throughout the calls, queue `q` has an id whenever it is asked. */
  predicate Keeps(order: seq<QueueName>, calls: seq<seq<Reply>>, q: QueueName)
    requires AllServed(order, calls) && q in order
    decreases |calls|
  {
    calls == [] ||
    var pos := Dequeue(|order|, 0, calls[0]).pos;
    RotateMembers(order, pos);
    NeverEmpty(|order|, 0, calls[0], Position(order, q)) && Keeps(Rotate(order, pos), calls[1..], q)
  }

  lemma RotateMembers(order: seq<QueueName>, pos: nat)
    requires pos < |order|
    ensures forall q :: q in Rotate(order, pos) <==> q in order
    ensures |Rotate(order, pos)| == |order|
    ensures NoDup(order) ==> NoDup(Rotate(order, pos))
  {
    var r := Rotate(order, pos);
    assert order == order[..pos + 1] + order[pos + 1..];
    if NoDup(order) {
      forall i, j | 0 <= i < j < |r| ensures r[i] != r[j] {
        var n := |order|;
        assert r[i] == order[if i + pos + 1 < n then i + pos + 1 else i + pos + 1 - n];
        assert r[j] == order[if j + pos + 1 < n then j + pos + 1 else j + pos + 1 - n];
      }
    }
  }

  /** Serving another queue ahead of it moves `q` strictly forward. */
  lemma MovesForward(order: seq<QueueName>, q: QueueName, pos: nat)
    requires NoDup(order) && q in order && pos < Position(order, q)
    ensures q in Rotate(order, pos)
    ensures Position(Rotate(order, pos), q) == Position(order, q) - pos - 1
  {
    var p := Position(order, q);
    RotateMembers(order, pos);
    assert Rotate(order, pos)[p - pos - 1] == q;
    PositionOf(Rotate(order, pos), p - pos - 1);
  }

  /** A queue that keeps holding a job is served within its position + 1 calls,
      whatever the other clients do meanwhile. */
  lemma {:induction false} BoundedWaiting(order: seq<QueueName>, calls: seq<seq<Reply>>, q: QueueName)
    requires NoDup(order) && q in order
    requires AllServed(order, calls) && Keeps(order, calls, q)
    requires Position(order, q) < |calls|
    ensures |ServedQueues(order, calls)| == |calls|
    ensures q in ServedQueues(order, calls)[..Position(order, q) + 1]
    decreases |calls|
  {
    var pos, p := Dequeue(|order|, 0, calls[0]).pos, Position(order, q);
    ServedNoLater(|order|, 0, calls[0], p);
    ServedLength(order, calls);
    var rest := ServedQueues(Rotate(order, pos), calls[1..]);
    assert ServedQueues(order, calls) == [order[pos]] + rest;
    if pos < p {
      MovesForward(order, q, pos);
      RotateMembers(order, pos);
      BoundedWaiting(Rotate(order, pos), calls[1..], q);
      var k :| 0 <= k < p - pos && rest[k] == q;
      assert ServedQueues(order, calls)[k + 1] == q;
    }
  }

  lemma {:induction false} ServedLength(order: seq<QueueName>, calls: seq<seq<Reply>>)
    requires AllServed(order, calls)
    ensures |ServedQueues(order, calls)| == |calls|
    decreases |calls|
  {
    if calls != [] { ServedLength(Rotate(order, Dequeue(|order|, 0, calls[0]).pos), calls[1..]); }
  }

  // ---------- Everybody busy: plain taking of turns ----------

  predicate FirstServed(order: seq<QueueName>, calls: seq<seq<Reply>>)
    requires AllServed(order, calls)
    decreases |calls|
  {
    calls == [] || (Dequeue(|order|, 0, calls[0]).pos == 0 && FirstServed(Rotate(order, 0), calls[1..]))
  }

  /** The remainder of k by n. */
  function Turn(k: nat, n: nat): (r: nat)
    requires n > 0
    ensures r < n
    decreases k
  {
    if k < n then k else Turn(k - n, n)
  }

  /** When the first queue always has a job the queues are served in turn, forever. */
  lemma {:induction false} TakesTurns(order: seq<QueueName>, calls: seq<seq<Reply>>, k: nat)
    requires AllServed(order, calls) && FirstServed(order, calls) && k < |calls| && order != []
    ensures |ServedQueues(order, calls)| == |calls|
    ensures ServedQueues(order, calls)[k] == order[Turn(k, |order|)]
    decreases |calls|
  {
    ServedLength(order, calls);
    if k > 0 {
      TakesTurns(Rotate(order, 0), calls[1..], k - 1);
      Wrapped(k, |order|);
    }
  }

  lemma {:induction false} Wrapped(k: nat, n: nat)
    requires k > 0 && n > 0
    ensures Turn(k, n) == if Turn(k - 1, n) + 1 == n then 0 else Turn(k - 1, n) + 1
    decreases k
  {
    if k > n { Wrapped(k - n, n); }
  }

  // ---------- The worker, undisturbed ----------

  datatype Store = Store(lists: map<QueueName, seq<JobId>>, jobs: set<JobId>)

  /** The list from its first live job on. */
  function LiveFrom(xs: seq<JobId>, jobs: set<JobId>): seq<JobId> {
    if xs == [] || xs[0] in jobs then xs else LiveFrom(xs[1..], jobs)
  }

  /** The first live job of the first queue that has one. */
  function NextJob(s: Store, order: seq<QueueName>): Option<(QueueName, JobId)> {
    if order == [] then None
    else
      var live := LiveFrom(ListAt(s.lists, order[0]), s.jobs);
      if live != [] then Some((order[0], live[0])) else NextJob(s, order[1..])
  }

  /** What is left: dead ids ahead of that job are gone, its queue starts behind it. */
  function ListsAfter(s: Store, order: seq<QueueName>): map<QueueName, seq<JobId>>
    decreases |order|
  {
    if order == [] then s.lists
    else
      var live := LiveFrom(ListAt(s.lists, order[0]), s.jobs);
      if live != [] then s.lists[order[0] := live[1..]]
      else ListsAfter(Cleared(s, order[0]), order[1..])
  }

  function Cleared(s: Store, q: QueueName): Store {
    if q in s.lists then s.(lists := s.lists[q := []]) else s
  }

  lemma {:induction false} DeadPopped(s: Store, order: seq<QueueName>, k: nat, t: Store)
    requires NoDup(order) && k < |order| && (forall i :: 0 <= i < k ==> ListAt(s.lists, order[i]) == [])
    requires order[k] in s.lists && s.lists[order[k]] != [] && s.lists[order[k]][0] !in s.jobs
    requires t == s.(lists := s.lists[order[k] := s.lists[order[k]][1..]])
    ensures NextJob(t, order) == NextJob(s, order)
    ensures ListsAfter(t, order) == ListsAfter(s, order)
    decreases |order|
  {
    if k > 0 {
      assert Cleared(s, order[0]).lists == s.lists && Cleared(t, order[0]).lists == t.lists;
      assert forall i :: 0 <= i < k - 1 ==> order[1..][i] == order[i + 1];
      DeadPopped(s, order[1..], k - 1, t);
    } else {
      OthersUnaffected(s, t, order[1..], order[0]);
      assert Cleared(s, order[0]) == Cleared(t, order[0]);
    }
  }

  lemma {:induction false} OthersUnaffected(s: Store, t: Store, order: seq<QueueName>, q: QueueName)
    requires q !in order && s.jobs == t.jobs
    requires forall p :: p != q ==> ListAt(s.lists, p) == ListAt(t.lists, p)
    ensures NextJob(s, order) == NextJob(t, order)
  {
    if order != [] { OthersUnaffected(s, t, order[1..], q); }
  }

  lemma {:induction false} AllEmpty(s: Store, order: seq<QueueName>, k: nat)
    requires k <= |order| && (forall i :: 0 <= i < k ==> ListAt(s.lists, order[i]) == [])
    ensures NextJob(s, order) == NextJob(s, order[k..]) && ListsAfter(s, order) == ListsAfter(s, order[k..])
    decreases |order|
  {
    if k > 0 {
      assert Cleared(s, order[0]).lists == s.lists;
      assert forall i :: 0 <= i < k - 1 ==> order[1..][i] == order[i + 1];
      AllEmpty(s, order[1..], k - 1);
      assert order[1..][k - 1..] == order[k..];
    } else {
      assert order[k..] == order;
    }
  }

  function TotalLength(lists: map<QueueName, seq<JobId>>, order: seq<QueueName>): nat {
    if order == [] then 0 else |ListAt(lists, order[0])| + TotalLength(lists, order[1..])
  }

  lemma {:induction false} PopShortens(lists: map<QueueName, seq<JobId>>, order: seq<QueueName>, k: nat)
    requires NoDup(order) && k < |order| && order[k] in lists && lists[order[k]] != []
    ensures TotalLength(lists[order[k] := lists[order[k]][1..]], order) == TotalLength(lists, order) - 1
  {
    var after := lists[order[k] := lists[order[k]][1..]];
    if k > 0 {
      assert order[1..][k - 1] == order[k];
      PopShortens(lists, order[1..], k - 1);
    } else {
      SameLength(lists, after, order[1..], order[0]);
    }
  }

  lemma {:induction false} SameLength(a: map<QueueName, seq<JobId>>, b: map<QueueName, seq<JobId>>, order: seq<QueueName>, q: QueueName)
    requires q !in order && forall p :: p != q ==> ListAt(a, p) == ListAt(b, p)
    ensures TotalLength(a, order) == TotalLength(b, order)
  {
    if order != [] { SameLength(a, b, order[1..], q); }
  }

  class Worker {
    var orderedQueues: seq<QueueName>
    var store: Store

    constructor (queues: seq<QueueName>, s: Store)
      ensures orderedQueues == queues && store == s
    {
      orderedQueues, store := queues, s;
    }

    /** Non-blocking `lpop`: the first list that is not empty. */
    method LPop() returns (r: Option<(nat, JobId)>)
      modifies this`store
      ensures store.jobs == old(store).jobs
      ensures r.None? ==> store == old(store)
      ensures r.None? ==> forall i :: 0 <= i < |orderedQueues| ==> ListAt(store.lists, orderedQueues[i]) == []
      ensures r.Some? ==>
        var k := r.value.0;
        && k < |orderedQueues| && (forall i :: 0 <= i < k ==> ListAt(old(store).lists, orderedQueues[i]) == [])
        && var q := orderedQueues[k];
           q in old(store).lists && old(store).lists[q] != [] && r.value.1 == old(store).lists[q][0]
           && store.lists == old(store).lists[q := old(store).lists[q][1..]]
    {
      var k := 0;
      while k < |orderedQueues|
        invariant k <= |orderedQueues| && store == old(store)
        invariant forall i :: 0 <= i < k ==> ListAt(store.lists, orderedQueues[i]) == []
      {
        var q := orderedQueues[k];
        if ListAt(store.lists, q) != [] {
          r := Some((k, store.lists[q][0]));
          store := store.(lists := store.lists[q := store.lists[q][1..]]);
          return;
        }
        k := k + 1;
      }
      return None;
    }

    /** `dequeue_any`: dead ids are dropped silently on the way to the first live job. */
    method DequeueAny() returns (r: Option<(QueueName, JobId)>)
      requires NoDup(orderedQueues)
      modifies this`store
      ensures r == NextJob(old(store), orderedQueues)
      ensures store == old(store).(lists := ListsAfter(old(store), orderedQueues))
    {
      while true
        invariant store.jobs == old(store).jobs
        invariant NextJob(store, orderedQueues) == NextJob(old(store), orderedQueues)
        invariant ListsAfter(store, orderedQueues) == ListsAfter(old(store), orderedQueues)
        decreases TotalLength(store.lists, orderedQueues)
      {
        ghost var s := store;
        var popped := LPop();
        if popped.None? {
          AllEmpty(s, orderedQueues, |orderedQueues|);
          assert orderedQueues[|orderedQueues|..] == [];
          return None;
        }
        var k, id := popped.value.0, popped.value.1;
        if id in store.jobs {
          AllEmpty(s, orderedQueues, k);
          assert orderedQueues[k..][0] == orderedQueues[k];
          return Some((orderedQueues[k], id));
        }
        DeadPopped(s, orderedQueues, k, store);
        PopShortens(s.lists, orderedQueues, k);
      }
    }

    /** `RoundRobinWorker.reorder_queues`. */
    method ReorderQueues(q: QueueName)
      requires q in orderedQueues
      modifies this`orderedQueues
      ensures orderedQueues == Rotate(old(orderedQueues), Position(old(orderedQueues), q))
    {
      var pos := 0;
      while orderedQueues[pos] != q
        invariant pos < |orderedQueues| && orderedQueues == old(orderedQueues) && q in orderedQueues[pos..]
        invariant pos + Position(orderedQueues[pos..], q) == Position(orderedQueues, q)
        decreases |orderedQueues| - pos
      {
        assert orderedQueues[pos..][1..] == orderedQueues[pos + 1..];
        pos := pos + 1;
      }
      orderedQueues := orderedQueues[pos + 1..] + orderedQueues[..pos + 1];
    }
  }
}
