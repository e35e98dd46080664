/** The locked priority queues: the global injection queue, and the whole of the standard runtime's dispatch. */
module ReadyQueues {
  import opened Basics

  const PRIORITY_COUNT := 5
  const AGING_INTERVAL := 8

  datatype SchedulerMode = Static | WorkStealing | PriorityAging

  /** One pop in every interval takes from the lowest non-empty priority instead of the highest. */
  predicate AgingPopFavoursLowest(mode: SchedulerMode, popIndex: nat) {
    mode == PriorityAging && popIndex % AGING_INTERVAL == AGING_INTERVAL - 1
  }

  /** In any `AGING_INTERVAL` consecutive pops of the aging mode, exactly one is an aging turn. */
  lemma OneAgingTurnPerInterval(start: nat) returns (turn: nat)
    ensures start <= turn < start + AGING_INTERVAL && AgingPopFavoursLowest(PriorityAging, turn)
    ensures forall i | start <= i < start + AGING_INTERVAL && AgingPopFavoursLowest(PriorityAging, i) :: i == turn
  {
    turn := start + (AGING_INTERVAL - 1 - start % AGING_INTERVAL);
  }

  /** The `i`-th queue of a scan. */
  function Scan(i: nat, lowestFirst: bool): nat
    requires i < PRIORITY_COUNT
  { if lowestFirst then PRIORITY_COUNT - 1 - i else i }

  /** `p` is the queue a scan settles on: nothing more urgent, or on an aging turn less urgent, is queued. */
  predicate Favoured<T>(queues: seq<seq<T>>, p: nat, lowestFirst: bool) {
    && |queues| == PRIORITY_COUNT && p < PRIORITY_COUNT && queues[p] != []
    && forall q | 0 <= q < PRIORITY_COUNT && (if lowestFirst then q > p else q < p) :: queues[q] == []
  }

  function Total<T>(queues: seq<seq<T>>): nat {
    if queues == [] then 0 else Total(queues[..|queues| - 1]) + |queues[|queues| - 1]|
  }

  lemma {:induction false} TotalOne<T>(queues: seq<seq<T>>, p: nat, queue: seq<T>)
    requires p < |queues|
    ensures Total(queues[p := queue]) == Total(queues) - |queues[p]| + |queue|
    ensures Total(queues) >= |queues[p]|
  {
    var n := |queues| - 1;
    assert queues[p := queue][..n] == if p < n then queues[..n][p := queue] else queues[..n];
    if p < n { TotalOne(queues[..n], p, queue); }
  }

  lemma {:induction false} TotalZero<T>(queues: seq<seq<T>>)
    ensures Total(queues) == 0 <==> forall p | 0 <= p < |queues| :: queues[p] == []
  {
    if queues != [] {
      var n := |queues| - 1;
      TotalZero(queues[..n]);
      assert forall p | 0 <= p < n :: queues[..n][p] == queues[p];
    }
  }

  /** Everything queued, regardless of order. */
  ghost function Bag<T>(queues: seq<seq<T>>): multiset<T> {
    if queues == [] then multiset{} else Bag(queues[..|queues| - 1]) + multiset(queues[|queues| - 1])
  }

  lemma {:induction false} BagPush<T>(queues: seq<seq<T>>, p: nat, x: T)
    requires p < |queues|
    ensures Bag(queues[p := queues[p] + [x]]) == Bag(queues) + multiset{x}
  {
    var n := |queues| - 1;
    var r := queues[p := queues[p] + [x]];
    if p < n {
      assert r[..n] == queues[..n][p := queues[..n][p] + [x]];
      BagPush(queues[..n], p, x);
    } else {
      assert r[..n] == queues[..n];
    }
  }

  lemma {:induction false} BagPop<T>(queues: seq<seq<T>>, p: nat)
    requires p < |queues| && queues[p] != []
    ensures Bag(queues) == Bag(queues[p := queues[p][1..]]) + multiset{queues[p][0]}
  {
    var n := |queues| - 1;
    var r := queues[p := queues[p][1..]];
    if p < n {
      assert r[..n] == queues[..n][p := queues[..n][p][1..]];
      BagPop(queues[..n], p);
    } else {
      assert r[..n] == queues[..n];
      assert queues[n] == [queues[n][0]] + queues[n][1..];
    }
  }

  class GlobalQueue<T(==)> {
    var queues: seq<seq<T>>
    var count: int

    ghost predicate Valid()
      reads this
    {
      |queues| == PRIORITY_COUNT && count == Total(queues)
    }

    constructor ()
      ensures Valid() && Bag(queues) == multiset{}
    {
      queues := seq(PRIORITY_COUNT, i => []);
      count := 0;
      Nothing<T>(seq(PRIORITY_COUNT, i => []));
    }

    method Push(handle: T, priority: nat)
      requires Valid() && priority < PRIORITY_COUNT
      modifies this
      ensures Valid() && queues == old(queues)[priority := old(queues)[priority] + [handle]]
      ensures Inserts(old(Bag(queues)), Bag(queues), handle)
    {
      TotalOne(queues, priority, queues[priority] + [handle]);
      BagPush(queues, priority, handle);
      queues := queues[priority := queues[priority] + [handle]];
      count := count + 1;
    }

    /** The oldest handle of the favoured priority, with that priority; nothing only if nothing is queued. */
    method PopWithPriority(lowestFirst: bool) returns (handle: Option<T>, priority: nat)
      requires Valid()
      modifies this
      ensures Valid()
      ensures handle.None? ==> queues == old(queues) && forall p | 0 <= p < PRIORITY_COUNT :: queues[p] == []
      ensures handle.Some? ==>
        && Favoured(old(queues), priority, lowestFirst)
        && old(queues)[priority] == [handle.value] + queues[priority]
        && queues == old(queues)[priority := queues[priority]]
        && Removes(old(Bag(queues)), Bag(queues), handle.value)
    {
      handle, priority := None, 0;
      TotalZero(queues);
      if count == 0 {
        return;
      }
      for i := 0 to PRIORITY_COUNT
        invariant Valid() && queues == old(queues)
        invariant forall k | 0 <= k < i :: queues[Scan(k, lowestFirst)] == []
      {
        var p := Scan(i, lowestFirst);
        if queues[p] != [] {
          assert Favoured(queues, p, lowestFirst) by { ScannedAll(queues, i, lowestFirst); }
          handle, priority := Some(queues[p][0]), p;
          TotalOne(queues, p, queues[p][1..]);
          BagPop(queues, p);
          assert queues[p] == [queues[p][0]] + queues[p][1..];
          ghost var rest := queues[p][1..];
          queues := queues[p := queues[p][1..]];
          count := count - 1;
          assert queues[p] == rest;
          return;
        }
      }
      ScannedAll(queues, PRIORITY_COUNT, lowestFirst);
    }
  }

  lemma {:induction false} Nothing<T>(queues: seq<seq<T>>)
    requires forall p | 0 <= p < |queues| :: queues[p] == []
    ensures Bag(queues) == multiset{} && Total(queues) == 0
  {
    if queues != [] { Nothing(queues[..|queues| - 1]); }
  }

  /** Everything a scan has passed is empty. */
  lemma ScannedAll<T>(queues: seq<seq<T>>, i: nat, lowestFirst: bool)
    requires |queues| == PRIORITY_COUNT && i <= PRIORITY_COUNT
    requires forall k | 0 <= k < i :: queues[Scan(k, lowestFirst)] == []
    ensures forall q | 0 <= q < PRIORITY_COUNT && (if lowestFirst then q > PRIORITY_COUNT - 1 - i else q < i) :: queues[q] == []
  {
    forall q | 0 <= q < PRIORITY_COUNT && (if lowestFirst then q > PRIORITY_COUNT - 1 - i else q < i) ensures queues[q] == [] {
      assert Scan(if lowestFirst then PRIORITY_COUNT - 1 - q else q, lowestFirst) == q;
    }
  }

  /** The standard runtime: one set of queues, every worker popping under the same lock. */
  class StandardDispatch<T(==)> {
    var ready: seq<seq<T>>
    var queuedCount: int

    ghost predicate Valid()
      reads this
    {
      |ready| == PRIORITY_COUNT && queuedCount == Total(ready)
    }

    constructor ()
      ensures Valid() && Bag(ready) == multiset{}
    {
      ready := seq(PRIORITY_COUNT, i => []);
      queuedCount := 0;
      Nothing<T>(seq(PRIORITY_COUNT, i => []));
    }

    method EnqueueReady(handle: T, priority: nat)
      requires Valid() && priority < PRIORITY_COUNT
      modifies this
      ensures Valid() && ready == old(ready)[priority := old(ready)[priority] + [handle]]
      ensures Inserts(old(Bag(ready)), Bag(ready), handle)
    {
      TotalOne(ready, priority, ready[priority] + [handle]);
      BagPush(ready, priority, handle);
      ready := ready[priority := ready[priority] + [handle]];
      queuedCount := queuedCount + 1;
    }

    method PopLocked() returns (handle: Option<T>)
      requires Valid()
      modifies this
      ensures Valid()
      ensures handle.None? ==> ready == old(ready) && forall p | 0 <= p < PRIORITY_COUNT :: ready[p] == []
      ensures handle.Some? ==>
        && (exists p: nat :: Favoured(old(ready), p, false) && old(ready)[p] == [handle.value] + ready[p]
                        && ready == old(ready)[p := ready[p]])
        && Removes(old(Bag(ready)), Bag(ready), handle.value)
    {
      handle := None;
      TotalZero(ready);
      if queuedCount == 0 {
        return;
      }
      for p := 0 to PRIORITY_COUNT
        invariant Valid() && ready == old(ready)
        invariant forall k | 0 <= k < p :: ready[k] == []
      {
        if ready[p] != [] {
          handle := Some(ready[p][0]);
          TotalOne(ready, p, ready[p][1..]);
          BagPop(ready, p);
          assert ready[p] == [ready[p][0]] + ready[p][1..];
          ready := ready[p := ready[p][1..]];
          queuedCount := queuedCount - 1;
          assert Favoured(old(ready), p, false) && old(ready)[p] == [handle.value] + ready[p];
          return;
        }
      }
    }
  }
}
