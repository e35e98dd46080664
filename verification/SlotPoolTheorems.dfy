/** Slot conservation: every slot of a live pool is in exactly one place, through every interleaving. */
module SlotPoolTheorems {
  import opened Basics
  import opened SlotPoolModel

  // ---------------------------------------------------------- moving slots about

  /** `r` is `pool` with the slots of `list` moved to `to`. */
  predicate MovesPlaces(pool: Pool, r: Pool, list: seq<nat>, to: Place) {
    r.capacity == pool.capacity && r.batch == pool.batch && r.places == Moved(pool.places, list, to)
  }

  /** A list that loses nothing to the move and is not its target keeps its place. */
  lemma Bystander(pool: Pool, r: Pool, moved: seq<nat>, to: Place, list: seq<nat>, place: Place)
    requires MovesPlaces(pool, r, moved, to) && Lists(pool, list, place)
    requires forall x | x in moved :: x !in list
    ensures Lists(r, list, place)
  {
  }

  /** The target takes the moved slots, which came from somewhere else. */
  lemma Receiver(pool: Pool, r: Pool, moved: seq<nat>, from: Place, to: Place, list: seq<nat>)
    requires MovesPlaces(pool, r, moved, to) && Lists(pool, list, to) && Lists(pool, moved, from) && from != to
    ensures Lists(r, list + moved, to)
  {
    forall k, m | 0 <= k < m < |list + moved| ensures (list + moved)[k] != (list + moved)[m] {
      if k < |list| <= m {
        assert list[k] in list && moved[m - |list|] in moved;
      }
    }
    forall x | x in list + moved ensures x < |r.places| && r.places[x] == to { assert x in list || x in moved; }
  }

  /** What is left of a list that the moved slots were taken out of. */
  lemma Giver(pool: Pool, r: Pool, low: seq<nat>, high: seq<nat>, to: Place, place: Place)
    requires Lists(pool, low + high, place)
    ensures MovesPlaces(pool, r, high, to) ==> Lists(r, low, place)
    ensures MovesPlaces(pool, r, low, to) ==> Lists(r, high, place)
    ensures Lists(pool, low, place) && Lists(pool, high, place)
    ensures forall x | x in low :: x !in high
  {
    var all := low + high;
    forall k, m | 0 <= k < m < |low| ensures low[k] != low[m] { assert all[k] == low[k] && all[m] == low[m]; }
    forall k, m | 0 <= k < m < |high| ensures high[k] != high[m] {
      assert all[|low| + k] == high[k] && all[|low| + m] == high[m];
    }
    forall k, m | 0 <= k < |low| && 0 <= m < |high| ensures low[k] != high[m] {
      assert all[k] == low[k] && all[|low| + m] == high[m];
    }
    forall x | x in low || x in high ensures x in all {
    }
  }

  lemma ListsBackwards(pool: Pool, list: seq<nat>, place: Place)
    requires Lists(pool, list, place)
    ensures Lists(pool, Backwards(list), place)
    ensures forall x :: x in Backwards(list) <==> x in list
  {
    var back := Backwards(list);
    forall x | x in list ensures x in back {
      var k :| 0 <= k < |list| && list[k] == x;
      assert back[|list| - 1 - k] == x;
    }
  }

  /** Two lists that belong in different places share nothing. */
  lemma Apart(pool: Pool, a: seq<nat>, p: Place, b: seq<nat>, q: Place)
    requires Lists(pool, a, p) && Lists(pool, b, q) && p != q
    ensures forall x | x in a :: x !in b
  {
  }

  // One fact out of the invariant at a time.

  lemma PoolHolds(s: Sys, id: PoolId)
    requires Inv(s) && id in s.pools
    ensures 0 < id < s.nextId && PoolOk(s.pools[id]) && CachedOk(s, id)
  {
  }

  lemma CacheHolds(s: Sys, t: Thread)
    requires Inv(s)
    ensures CacheOk(s, t)
  {
  }

  // ------------------------------------------------------ pools come and pools go

  lemma {:induction false} DealtHolds(capacity: nat, low: nat, j: nat, x: nat)
    requires low <= capacity && j < SHARD_COUNT
    ensures x in Dealt(capacity, low)[j] <==> low <= x < capacity && x % SHARD_COUNT == j
    ensures Distinct(Dealt(capacity, low)[j])
    decreases capacity - low
  {
    if low < capacity {
      DealtHolds(capacity, low + 1, j, x);
      DealtHolds(capacity, low + 1, j, low);
    }
  }

  lemma CreateKeeps(s: Sys, r: Sys, t: Thread, j: nat, capacity: nat, threadCache: bool)
    requires Inv(s) && Step(s, r, t, j, Create(capacity, threadCache))
    ensures Inv(r)
  {
    var id := s.nextId;
    var pool := r.pools[id];
    forall i | 0 <= i < SHARD_COUNT ensures Lists(pool, pool.shards[i], InShard(i)) {
      DealtHolds(capacity, 0, i, 0);
      forall x | x in pool.shards[i] ensures x < |pool.places| && pool.places[x] == InShard(i) {
        DealtHolds(capacity, 0, i, x);
      }
    }
    forall x | 0 <= x < capacity ensures x in pool.shards[x % SHARD_COUNT] { DealtHolds(capacity, 0, x % SHARD_COUNT, x); }
    assert PoolOk(pool);
    forall i | i in r.pools ensures PoolOk(r.pools[i]) && CachedOk(r, i) {
      if i != id { PoolHolds(s, i); assert CachedOk(s, i); }
    }
    forall u: Thread ensures CacheOk(r, u) { CacheHolds(s, u); }
  }

  lemma DestroyKeeps(s: Sys, r: Sys, t: Thread, j: nat, id: PoolId)
    requires Inv(s) && Step(s, r, t, j, Destroy(id))
    ensures Inv(r)
  {
    forall i | i in r.pools ensures 0 < i < r.nextId && PoolOk(r.pools[i]) && CachedOk(r, i) {
      PoolHolds(s, i);
    }
    forall u: Thread ensures CacheOk(r, u) { CacheHolds(s, u); }
  }

  lemma BindKeeps(s: Sys, r: Sys, t: Thread, j: nat, id: PoolId)
    requires Inv(s) && Step(s, r, t, j, Bind(id))
    ensures Inv(r)
  {
    forall i | i in r.pools ensures 0 < i < r.nextId && PoolOk(r.pools[i]) && CachedOk(r, i) {
      PoolHolds(s, i);
      assert CachedOk(s, i);
    }
    forall u: Thread ensures CacheOk(r, u) { CacheHolds(s, u); }
  }

  // ----------------------------------------------------- slots that change places

  function SetOf(list: seq<nat>): set<nat> { set x | x in list }

  /** `moved` goes from the end of one list, or from a cache or the tasks, to the end of another. */
  ghost predicate Transfer(pool: Pool, r: Pool, moved: seq<nat>, from: Place, to: Place) {
    && MovesPlaces(pool, r, moved, to) && Lists(pool, moved, from) && from != to && |r.shards| == |pool.shards|
    && (to.InShard? ==> to.shard < |pool.shards|)
    && (forall i | 0 <= i < |pool.shards| ::
          if to == InShard(i) then r.shards[i] == pool.shards[i] + moved
          else if from == InShard(i) then r.shards[i] + moved == pool.shards[i]
          else r.shards[i] == pool.shards[i])
    && r.held == (if to.Held? then pool.held + SetOf(moved) else if from.Held? then pool.held - SetOf(moved) else pool.held)
  }

  lemma TransferShard(pool: Pool, r: Pool, moved: seq<nat>, from: Place, to: Place, i: nat)
    requires PoolOk(pool) && Transfer(pool, r, moved, from, to) && i < SHARD_COUNT
    ensures Lists(r, r.shards[i], InShard(i))
    ensures forall x | x in pool.shards[i] && x !in moved :: x in r.shards[i]
  {
    if to == InShard(i) { Receiver(pool, r, moved, from, to, pool.shards[i]); }
    else if from == InShard(i) { Giver(pool, r, r.shards[i], moved, to, from); }
    else {
      Apart(pool, moved, from, pool.shards[i], InShard(i));
      Bystander(pool, r, moved, to, pool.shards[i], InShard(i));
    }
  }

  lemma TransferKeepsPool(pool: Pool, r: Pool, moved: seq<nat>, from: Place, to: Place)
    requires PoolOk(pool) && Transfer(pool, r, moved, from, to)
    ensures PoolOk(r)
  {
    forall i | 0 <= i < SHARD_COUNT
      ensures Lists(r, r.shards[i], InShard(i)) && forall x | x in pool.shards[i] && x !in moved :: x in r.shards[i]
    {
      TransferShard(pool, r, moved, from, to, i);
    }
    forall x | 0 <= x < r.capacity && r.places[x].InShard?
      ensures r.places[x].shard < SHARD_COUNT && x in r.shards[r.places[x].shard]
    {
      if x in moved { assert r.places[x] == to; }
    }
    forall x ensures x in r.held <==> 0 <= x < r.capacity && r.places[x].Held? {
    }
  }

  /** A step of thread `t` moves slots of pool `id`; its own cache, if it changes, is and was for this pool. */
  ghost predicate OwnMove(s: Sys, r: Sys, t: Thread, id: PoolId) {
    && id in s.pools && id in r.pools && r.nextId == s.nextId
    && r.pools == s.pools[id := r.pools[id]] && r.pools[id].batch == s.pools[id].batch
    && (forall u | u != t :: CacheOf(r, u) == CacheOf(s, u))
    && (CacheOf(r, t) == CacheOf(s, t) || (CacheOf(s, t).id == id && CacheOf(r, t).id == id) || (CacheOf(s, t).id == id && CacheOf(r, t) == NO_CACHE))
  }

  /** The thread's own cache after the move: what it lists is there, and what is there it lists. */
  ghost predicate OwnCacheOk(s: Sys, r: Sys, t: Thread, id: PoolId)
    requires id in r.pools
  {
    var cache := CacheOf(r, t);
    && (cache.id == id ==>
          0 < r.pools[id].batch && |cache.slots| <= 2 * r.pools[id].batch && Lists(r.pools[id], cache.slots, InCache(t)))
    && (forall x | 0 <= x < |r.pools[id].places| && r.pools[id].places[x] == InCache(t) :: cache.id == id && x in cache.slots)
  }

  lemma TransferKeepsInv(s: Sys, r: Sys, t: Thread, id: PoolId, moved: seq<nat>, from: Place, to: Place)
    requires Inv(s) && OwnMove(s, r, t, id) && Transfer(s.pools[id], r.pools[id], moved, from, to)
    requires OwnCacheOk(s, r, t, id) && (from.InCache? ==> from.thread == t) && (to.InCache? ==> to.thread == t)
    ensures Inv(r)
  {
    hide Transfer;
    PoolHolds(s, id);
    TransferKeepsPool(s.pools[id], r.pools[id], moved, from, to);
    TransferMoves(s.pools[id], r.pools[id], moved, from, to);
    forall i | i in r.pools ensures 0 < i < r.nextId && PoolOk(r.pools[i]) && CachedOk(r, i) {
      PoolHolds(s, i);
      CacheHolds(s, t);
      TransferCached(s, r, t, id, moved, from, to, i);
    }
    forall u: Thread ensures CacheOk(r, u) {
      hide PoolOk, CachedOk, MovesPlaces;
      CacheHolds(s, u);
      if u != t && CacheOf(s, u).id == id {
        Apart(s.pools[id], moved, from, CacheOf(s, u).slots, InCache(u));
        Bystander(s.pools[id], r.pools[id], moved, to, CacheOf(s, u).slots, InCache(u));
      }
    }
  }

  lemma TransferMoves(pool: Pool, r: Pool, moved: seq<nat>, from: Place, to: Place)
    requires Transfer(pool, r, moved, from, to)
    ensures MovesPlaces(pool, r, moved, to) && Lists(pool, moved, from) && from != to
  {
  }

  lemma TransferCached(s: Sys, r: Sys, t: Thread, id: PoolId, moved: seq<nat>, from: Place, to: Place, i: PoolId)
    requires Inv(s) && OwnMove(s, r, t, id) && OwnCacheOk(s, r, t, id) && i in r.pools
    requires MovesPlaces(s.pools[id], r.pools[id], moved, to) && (to.InCache? ==> to.thread == t)
    ensures CachedOk(r, i)
  {
    PoolHolds(s, i);
  }

  lemma DrainKeeps(s: Sys, r: Sys, t: Thread, j: nat)
    requires Inv(s) && Step(s, r, t, j, Drain)
    ensures Inv(r)
  {
    var cache := CacheOf(s, t);
    CacheHolds(s, t);
    if cache.id in s.pools {
      hide Inv;
      PoolHolds(s, cache.id);
      TransferKeepsInv(s, r, t, cache.id, cache.slots, InCache(t), InShard(j));
    } else {
      forall i | i in r.pools ensures 0 < i < r.nextId && PoolOk(r.pools[i]) && CachedOk(r, i) { PoolHolds(s, i); }
      forall u: Thread ensures CacheOk(r, u) { CacheHolds(s, u); }
    }
  }

  /** A refill on the pool's side. */
  lemma RefillTransfer(pool: Pool, r: Pool, t: Thread, j: nat, n: nat)
    requires PoolOk(pool) && j < SHARD_COUNT && n <= |pool.shards[j]|
    requires var shard := pool.shards[j];
      r == SetShard(pool, j, shard[..|shard| - n]).(places := Moved(pool.places, shard[|shard| - n..], InCache(t)))
    ensures Transfer(pool, r, pool.shards[j][|pool.shards[j]| - n..], InShard(j), InCache(t))
  {
    var shard := pool.shards[j];
    assert shard == shard[..|shard| - n] + shard[|shard| - n..];
    Giver(pool, r, shard[..|shard| - n], shard[|shard| - n..], InCache(t), InShard(j));
  }

  /** A refill on the cache's side. */
  lemma RefillFills(pool: Pool, r: Pool, moved: seq<nat>, t: Thread, j: nat)
    requires MovesPlaces(pool, r, moved, InCache(t)) && Lists(pool, moved, InShard(j))
    ensures Lists(r, Backwards(moved), InCache(t)) && forall x :: x in Backwards(moved) <==> x in moved
  {
    Receiver(pool, r, moved, InShard(j), InCache(t), []);
    assert [] + moved == moved;
    ListsBackwards(r, moved, InCache(t));
  }

  lemma RefillKeeps(s: Sys, r: Sys, t: Thread, j: nat)
    requires Inv(s) && Step(s, r, t, j, Refill)
    ensures Inv(r)
  {
    var cache := CacheOf(s, t);
    var pool, after := s.pools[cache.id], r.pools[cache.id];
    var shard := pool.shards[j];
    var n := RefillCount(shard, cache.slots, pool.batch);
    var moved := shard[|shard| - n..];
    assert RefilledSlots(shard, cache.slots, pool.batch) == Backwards(moved);
    hide Inv, Transfer, RefilledSlots, RefillCount, Lists, MovesPlaces;
    PoolHolds(s, cache.id);
    CacheHolds(s, t);
    RefillTransfer(pool, after, t, j, n);
    TransferMoves(pool, after, moved, InShard(j), InCache(t));
    RefillFills(pool, after, moved, t, j);
    assert OwnCacheOk(s, r, t, cache.id) by { RefillComplete(s, after, t, cache.id, moved); }
    TransferKeepsInv(s, r, t, cache.id, moved, InShard(j), InCache(t));
  }

  /** An empty cache is known to have been empty. */
  lemma RefillComplete(s: Sys, after: Pool, t: Thread, id: PoolId, moved: seq<nat>)
    requires Inv(s) && id in s.pools && CacheOf(s, t).slots == []
    requires MovesPlaces(s.pools[id], after, moved, InCache(t))
    ensures forall x | 0 <= x < |after.places| && after.places[x] == InCache(t) :: x in moved
  {
    PoolHolds(s, id);
  }

  lemma TakeCachedKeeps(s: Sys, r: Sys, t: Thread, j: nat)
    requires Inv(s) && Step(s, r, t, j, TakeCached)
    ensures Inv(r)
  {
    hide Inv;
    var cache := CacheOf(s, t);
    PoolHolds(s, cache.id);
    CacheHolds(s, t);
    var rest, x := cache.slots[..|cache.slots| - 1], cache.slots[|cache.slots| - 1];
    assert cache.slots == rest + [x];
    Giver(s.pools[cache.id], r.pools[cache.id], rest, [x], Held, InCache(t));
    TransferKeepsInv(s, r, t, cache.id, [x], InCache(t), Held);
  }

  lemma TakeSharedKeeps(s: Sys, r: Sys, t: Thread, j: nat, id: PoolId)
    requires Inv(s) && Step(s, r, t, j, TakeShared(id))
    ensures Inv(r)
  {
    hide Inv;
    PoolHolds(s, id);
    CacheHolds(s, t);
    var shard := s.pools[id].shards[j];
    var rest, x := shard[..|shard| - 1], shard[|shard| - 1];
    assert shard == rest + [x];
    Giver(s.pools[id], r.pools[id], rest, [x], Held, InShard(j));
    TransferKeepsInv(s, r, t, id, [x], InShard(j), Held);
  }

  lemma SpillKeeps(s: Sys, r: Sys, t: Thread, j: nat)
    requires Inv(s) && Step(s, r, t, j, Spill)
    ensures Inv(r)
  {
    hide Inv, Lists;
    var cache := CacheOf(s, t);
    var pool, after := s.pools[cache.id], r.pools[cache.id];
    PoolHolds(s, cache.id);
    CacheHolds(s, t);
    var cold, warm := cache.slots[..pool.batch], cache.slots[pool.batch..];
    assert cache.slots == cold + warm;
    Giver(pool, after, cold, warm, InShard(j), InCache(t));
    assert Transfer(pool, after, cold, InCache(t), InShard(j));
    TransferKeepsInv(s, r, t, cache.id, cold, InCache(t), InShard(j));
  }

  lemma GiveCachedKeeps(s: Sys, r: Sys, t: Thread, j: nat, x: nat)
    requires Inv(s) && Step(s, r, t, j, GiveCached(x))
    ensures Inv(r)
  {
    hide Inv;
    var cache := CacheOf(s, t);
    PoolHolds(s, cache.id);
    CacheHolds(s, t);
    Receiver(s.pools[cache.id], r.pools[cache.id], [x], Held, InCache(t), cache.slots);
    TransferKeepsInv(s, r, t, cache.id, [x], Held, InCache(t));
  }

  lemma GiveSharedKeeps(s: Sys, r: Sys, t: Thread, j: nat, id: PoolId, x: nat)
    requires Inv(s) && Step(s, r, t, j, GiveShared(id, x))
    ensures Inv(r)
  {
    hide Inv;
    PoolHolds(s, id);
    CacheHolds(s, t);
    TransferKeepsInv(s, r, t, id, [x], Held, InShard(j));
  }

  lemma StepKeepsInv(s: Sys, r: Sys, t: Thread, j: nat, action: Action)
    requires Inv(s) && Step(s, r, t, j, action)
    ensures Inv(r)
  {
    hide Inv, Step;
    match action
    case Create(capacity, threadCache) => CreateKeeps(s, r, t, j, capacity, threadCache);
    case Destroy(id) => DestroyKeeps(s, r, t, j, id);
    case Drain => DrainKeeps(s, r, t, j);
    case Bind(id) => BindKeeps(s, r, t, j, id);
    case Refill => RefillKeeps(s, r, t, j);
    case TakeCached => TakeCachedKeeps(s, r, t, j);
    case TakeShared(id) => TakeSharedKeeps(s, r, t, j, id);
    case Spill => SpillKeeps(s, r, t, j);
    case GiveCached(x) => GiveCachedKeeps(s, r, t, j, x);
    case GiveShared(id, x) => GiveSharedKeeps(s, r, t, j, id, x);
  }

  lemma {:induction false} RunKeepsInv(run: seq<Sys>, n: nat)
    requires Run(run) && n < |run|
    ensures Inv(run[n])
  {
    if n > 0 {
      hide Inv, Step;
      RunKeepsInv(run, n - 1);
      assert Follows(run, n);
      var t: Thread, j: nat, action: Action :| Step(run[n - 1], run[n], t, j, action);
      StepKeepsInv(run[n - 1], run[n], t, j, action);
    }
  }

  // ------------------------------------------------------------- main results

  /** How often the slot is in free list `j` of its pool, in thread `t`'s cache for it, with a task. */
  function InList(s: Sys, id: PoolId, j: nat, x: nat): nat
    requires id in s.pools && j < |s.pools[id].shards|
  { multiset(s.pools[id].shards[j])[x] }

  function InThread(s: Sys, id: PoolId, t: Thread, x: nat): nat {
    if CacheOf(s, t).id == id then multiset(CacheOf(s, t).slots)[x] else 0
  }

  function WithTask(s: Sys, id: PoolId, x: nat): nat
    requires id in s.pools
  { if x in s.pools[id].held then 1 else 0 }

  /**
   Each slot of a live pool is in exactly one place, and there once: one of the sixteen free
   lists, one thread's cache, or one task; whatever threads refill, spill, rebind and drain
   meanwhile, and whatever pools come and go.
   */
  lemma EverySlotInOnePlace(run: seq<Sys>, n: nat, id: PoolId, x: nat) returns (place: Place)
    requires Run(run) && n < |run| && id in run[n].pools && x < run[n].pools[id].capacity
    ensures |run[n].pools[id].shards| == SHARD_COUNT && (place.InShard? ==> place.shard < SHARD_COUNT)
    ensures forall j | 0 <= j < SHARD_COUNT :: InList(run[n], id, j, x) == if place == InShard(j) then 1 else 0
    ensures forall t: Thread :: InThread(run[n], id, t, x) == if place == InCache(t) then 1 else 0
    ensures WithTask(run[n], id, x) == if place == Held then 1 else 0
  {
    RunKeepsInv(run, n);
    hide Inv;
    var s := run[n];
    PoolHolds(s, id);
    place := s.pools[id].places[x];
    forall j | 0 <= j < SHARD_COUNT ensures InList(s, id, j, x) == if place == InShard(j) then 1 else 0 {
      assert Lists(s.pools[id], s.pools[id].shards[j], InShard(j));
      OnceIfDistinct(s.pools[id].shards[j], x);
    }
    forall t: Thread ensures InThread(s, id, t, x) == if place == InCache(t) then 1 else 0 {
      CacheHolds(s, t);
      if CacheOf(s, t).id == id { OnceIfDistinct(CacheOf(s, t).slots, x); }
    }
  }

  /** Nothing but the pool's own slots is ever on its lists or in a cache for it. */
  lemma NothingForeign(run: seq<Sys>, n: nat, id: PoolId, t: Thread, j: nat, x: nat)
    requires Run(run) && n < |run| && id in run[n].pools && j < SHARD_COUNT && x >= run[n].pools[id].capacity
    ensures |run[n].pools[id].shards| == SHARD_COUNT
    ensures InList(run[n], id, j, x) == 0 && InThread(run[n], id, t, x) == 0 && WithTask(run[n], id, x) == 0
  {
    RunKeepsInv(run, n);
    hide Inv;
    var s := run[n];
    PoolHolds(s, id);
    CacheHolds(s, t);
    assert Lists(s.pools[id], s.pools[id].shards[j], InShard(j));
    OnceIfDistinct(s.pools[id].shards[j], x);
    if CacheOf(s, t).id == id { OnceIfDistinct(CacheOf(s, t).slots, x); }
  }

  // --------------------------------------------------------------- exhaustion

  lemma {:induction false} SetOfFits(list: seq<nat>)
    ensures |SetOf(list)| <= |list|
  {
    if list == [] {
      assert SetOf(list) == {};
    } else {
      var n := |list| - 1;
      SetOfFits(list[..n]);
      assert SetOf(list) == SetOf(list[..n]) + {list[n]};
    }
  }

  lemma Fewer(a: set<nat>, b: set<nat>)
    requires a <= b
    ensures |a| <= |b|
  {
    assert b == a + (b - a);
  }

  /** The pool's slots that are in the caches of `threads`. */
  function CachedBy(pool: Pool, threads: set<Thread>): set<nat> {
    set x | 0 <= x < |pool.places| && pool.places[x].InCache? && pool.places[x].thread in threads
  }

  function Indices(n: nat): (all: set<nat>)
    ensures forall x :: x in all <==> 0 <= x < n
  {
    if n == 0 then {} else Indices(n - 1) + {n - 1}
  }

  lemma {:induction false} IndicesCount(n: nat)
    ensures |Indices(n)| == n
  {
    if n > 0 {
      IndicesCount(n - 1);
    }
  }

  /** What some threads can hide is bounded by two batches each. */
  lemma {:induction false} HiddenAtMost(s: Sys, id: PoolId, threads: set<Thread>)
    requires Inv(s) && id in s.pools
    ensures |CachedBy(s.pools[id], threads)| <= |threads| * (2 * s.pools[id].batch)
  {
    hide Inv;
    var pool := s.pools[id];
    if threads == {} {
      assert CachedBy(pool, threads) == {};
    } else {
      var t :| t in threads;
      HiddenAtMost(s, id, threads - {t});
      OneHides(s, id, t);
      var rest, one := CachedBy(pool, threads - {t}), CachedBy(pool, {t});
      assert CachedBy(pool, threads) == rest + one;
      assert |rest + one| <= |rest| + |one|;
      assert |threads| * (2 * pool.batch) == (|threads| - 1) * (2 * pool.batch) + 2 * pool.batch;
    }
  }

  lemma OneHides(s: Sys, id: PoolId, t: Thread)
    requires Inv(s) && id in s.pools
    ensures |CachedBy(s.pools[id], {t})| <= 2 * s.pools[id].batch
  {
    PoolHolds(s, id);
    CacheHolds(s, t);
    var slots := if CacheOf(s, t).id == id then CacheOf(s, t).slots else [];
    SetOfFits(slots);
    Fewer(CachedBy(s.pools[id], {t}), SetOf(slots));
  }

  /**
   The price of the caches. When a thread finds every free list of a pool and its own cache
   empty, all of the pool's slots are with tasks except those in the other caching threads'
   caches, at most two batches each; and a batch is at most one sixty-fourth of the pool.
   */
  lemma ExhaustionBound(run: seq<Sys>, n: nat, id: PoolId, t: Thread, others: set<Thread>)
    requires Run(run) && n < |run| && id in run[n].pools && (CacheOf(run[n], t).id == id ==> CacheOf(run[n], t).slots == [])
    requires forall j | 0 <= j < |run[n].pools[id].shards| :: run[n].pools[id].shards[j] == []
    requires forall u: Thread | CacheOf(run[n], u).id == id && u != t :: u in others
    ensures var pool := run[n].pools[id];
      |pool.held| >= pool.capacity - |others| * (2 * pool.batch) && pool.batch <= pool.capacity / 64
  {
    RunKeepsInv(run, n);
    hide Inv;
    var s := run[n];
    var pool := s.pools[id];
    PoolHolds(s, id);
    HiddenAtMost(s, id, others);
    IndicesCount(pool.capacity);
    forall x | x in Indices(pool.capacity) ensures x in pool.held + CachedBy(pool, others) {
    }
    Fewer(Indices(pool.capacity), pool.held + CachedBy(pool, others));
    assert |pool.held + CachedBy(pool, others)| <= |pool.held| + |CachedBy(pool, others)|;
  }

  // -------------------------------------------- lists looked at one after the other

  predicate OnList(s: Sys, id: PoolId, x: nat)
    requires id in s.pools
  {
    exists j :: 0 <= j < |s.pools[id].shards| && x in s.pools[id].shards[j]
  }

  /** No step moves a slot from one free list straight to another. */
  lemma StaysOnItsList(s: Sys, r: Sys, t: Thread, j: nat, action: Action, id: PoolId, x: nat)
    requires Inv(s) && Step(s, r, t, j, action) && id in s.pools && id in r.pools && x < |s.pools[id].places|
    ensures |r.pools[id].places| == |s.pools[id].places|
    ensures s.pools[id].places[x].InShard? && r.pools[id].places[x].InShard? ==> r.pools[id].places[x] == s.pools[id].places[x]
  {
    hide Inv;
    PoolHolds(s, id);
    CacheHolds(s, t);
    if CacheOf(s, t).id in s.pools { PoolHolds(s, CacheOf(s, t).id); }
  }

  lemma PlaceOnList(s: Sys, id: PoolId, x: nat)
    requires Inv(s) && id in s.pools
    ensures |s.pools[id].shards| == SHARD_COUNT && |s.pools[id].places| == s.pools[id].capacity
    ensures x < s.pools[id].capacity ==> (OnList(s, id, x) <==> s.pools[id].places[x].InShard?)
    ensures x < s.pools[id].capacity && s.pools[id].places[x].InShard? ==>
      s.pools[id].places[x].shard < SHARD_COUNT && x in s.pools[id].shards[s.pools[id].places[x].shard]
  {
    hide Inv;
    PoolHolds(s, id);
    hide CachedOk;
    assert forall j | 0 <= j < SHARD_COUNT :: Lists(s.pools[id], s.pools[id].shards[j], InShard(j));
  }

  /** While a slot is on some list at every moment, it is on the same one. */
  lemma {:induction false} SameListThroughout(run: seq<Sys>, first: nat, n: nat, id: PoolId, x: nat)
    requires Run(run) && first <= n < |run|
    requires forall k | first <= k <= n :: id in run[k].pools && OnList(run[k], id, x)
    requires x < |run[first].pools[id].places|
    ensures |run[n].pools[id].places| == |run[first].pools[id].places|
    ensures run[n].pools[id].places[x] == run[first].pools[id].places[x]
  {
    hide Inv, Step, OnList;
    RunKeepsInv(run, n);
    PlaceOnList(run[n], id, x);
    if first < n {
      SameListThroughout(run, first, n - 1, id, x);
      RunKeepsInv(run, n - 1);
      PlaceOnList(run[n - 1], id, x);
      assert Follows(run, n);
      var t: Thread, j: nat, action: Action :| Step(run[n - 1], run[n], t, j, action);
      StaysOnItsList(run[n - 1], run[n], t, j, action, id, x);
    }
  }

  /**
   What a failing scan does establish when its looks are spread over time. If every list was
   empty at the moment it was looked at, every slot of the pool was off the lists, in a cache or
   with a task, at some moment of the scan, however the slots moved about meanwhile.
   */
  lemma FailedScanMissesNoSlot(run: seq<Sys>, first: nat, last: nat, looks: seq<nat>, id: PoolId, x: nat) returns (k: nat)
    requires Run(run) && first <= last < |run| && |looks| == SHARD_COUNT
    requires forall i | first <= i <= last :: id in run[i].pools
    requires forall j | 0 <= j < SHARD_COUNT ::
      first <= looks[j] <= last && j < |run[looks[j]].pools[id].shards| && run[looks[j]].pools[id].shards[j] == []
    requires x < run[first].pools[id].capacity
    ensures first <= k <= last && !OnList(run[k], id, x)
  {
    hide OnList;
    RunKeepsInv(run, first);
    PlaceOnList(run[first], id, x);
    if i :| first <= i <= last && !OnList(run[i], id, x) {
      k := i;
    } else {
      var place := run[first].pools[id].places[x];
      assert OnList(run[first], id, x);
      k := looks[place.shard];
      RunKeepsInv(run, k);
      SameListThroughout(run, first, k, id, x);
      PlaceOnList(run[k], id, x);
    }
  }
}
