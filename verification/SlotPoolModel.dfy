/**
 Where the slots of every pool are: sharded free lists, one cache a thread, tasks. One step is
 one section under a shard lock or one access to a thread's own cache, so the operations of
 different threads on different pools interleave freely between them.
 */
module SlotPoolModel {
  import opened Basics

  type PoolId = nat
  type Thread = nat

  const SHARD_COUNT := 16
  const MAX_BATCH := 64
  const MIN_CAPACITY_FOR_CACHE := 1024

  /** Slots moved per lock acquisition; 0 if the pool does not use the thread caches. */
  function BatchFor(capacity: nat, threadCache: bool): (batch: nat)
    ensures batch <= MAX_BATCH && batch <= capacity / 64
    ensures batch > 0 <==> threadCache && capacity >= MIN_CAPACITY_FOR_CACHE
  {
    if threadCache && capacity >= MIN_CAPACITY_FOR_CACHE then
      if MAX_BATCH < capacity / (SHARD_COUNT * 4) then MAX_BATCH else capacity / (SHARD_COUNT * 4)
    else 0
  }

  datatype Place = InShard(shard: nat) | InCache(thread: Thread) | Held

  /** `held` are the slots tasks have. `places` is history: where each slot is; no step looks at it. */
  datatype Pool = Pool(capacity: nat, batch: nat, shards: seq<seq<nat>>, held: set<nat>, places: seq<Place>)

  /** A thread's cache: the pool it is for (0 if none), and the slots, oldest first. */
  datatype Cache = Cache(id: PoolId, slots: seq<nat>)

  datatype Sys = Sys(pools: map<PoolId, Pool>, caches: map<Thread, Cache>, nextId: PoolId)

  const NO_CACHE := Cache(0, [])

  function CacheOf(s: Sys, t: Thread): Cache { if t in s.caches then s.caches[t] else NO_CACHE }

  // ------------------------------------------- what one section does to the lists

  /** The constructor's dealing, after the indices from `low` up. */
  function Dealt(capacity: nat, low: nat): (shards: seq<seq<nat>>)
    requires low <= capacity
    ensures |shards| == SHARD_COUNT
    decreases capacity - low
  {
    if low == capacity then seq(SHARD_COUNT, i => [])
    else
      var later := Dealt(capacity, low + 1);
      later[low % SHARD_COUNT := later[low % SHARD_COUNT] + [low]]
  }

  /** How many slots a refill takes from a shard. */
  function RefillCount(shard: seq<nat>, slots: seq<nat>, batch: nat): (n: nat)
    ensures n <= |shard| && (n > 0 ==> |slots| + n <= batch)
  {
    if |slots| >= batch then 0 else if |shard| < batch - |slots| then |shard| else batch - |slots|
  }

  function Backwards(list: seq<nat>): (r: seq<nat>)
    ensures |r| == |list| && forall k | 0 <= k < |list| :: r[k] == list[|list| - 1 - k]
  {
    seq(|list|, k requires 0 <= k < |list| => list[|list| - 1 - k])
  }

  /** `refill_cache` on the shard it settles on: slots come off the back. */
  function RefilledSlots(shard: seq<nat>, slots: seq<nat>, batch: nat): seq<nat> {
    slots + Backwards(shard[|shard| - RefillCount(shard, slots, batch)..])
  }

  function RefilledShard(shard: seq<nat>, slots: seq<nat>, batch: nat): seq<nat> {
    shard[..|shard| - RefillCount(shard, slots, batch)]
  }

  // ------------------------------------------------------------------- steps

  function Moved(places: seq<Place>, slots: seq<nat>, to: Place): (r: seq<Place>)
    ensures |r| == |places|
  {
    seq(|places|, x requires 0 <= x < |places| => if x in slots then to else places[x])
  }

  function SetShard(pool: Pool, j: nat, shard: seq<nat>): Pool
    requires j < |pool.shards|
  { pool.(shards := pool.shards[j := shard]) }

  function SetPool(s: Sys, id: PoolId, pool: Pool): Sys { s.(pools := s.pools[id := pool]) }

  function SetCache(s: Sys, t: Thread, cache: Cache): Sys { s.(caches := s.caches[t := cache]) }

  datatype Action =
    | Create(capacity: nat, threadCache: bool)
    | Destroy(id: PoolId)
    | Drain
    | Bind(id: PoolId)
    | Refill
    | TakeCached
    | TakeShared(id: PoolId)
    | Spill
    | GiveCached(slot: nat)
    | GiveShared(id: PoolId, slot: nat)

  /** A step of thread `t`, on shard `j` where a shard is concerned. */
  ghost predicate Step(s: Sys, r: Sys, t: Thread, j: nat, action: Action) {
    j < SHARD_COUNT
    && var cache := CacheOf(s, t);
    match action
    case Create(capacity, threadCache) =>
      r == SetPool(s, s.nextId,
                   Pool(capacity, BatchFor(capacity, threadCache), Dealt(capacity, 0), {},
                        seq(capacity, x requires 0 <= x < capacity => InShard(x % SHARD_COUNT))))
           .(nextId := s.nextId + 1)
    case Destroy(id) => r == s.(pools := s.pools - {id})
    case Drain =>
      if cache.id in s.pools then
        && j < |s.pools[cache.id].shards|
        && var pool := s.pools[cache.id];
           r == SetCache(SetPool(s, cache.id, SetShard(pool, j, pool.shards[j] + cache.slots)
                                                .(places := Moved(pool.places, cache.slots, InShard(j)))),
                         t, NO_CACHE)
      else r == SetCache(s, t, NO_CACHE)
    case Bind(id) =>
      cache == NO_CACHE && id in s.pools && s.pools[id].batch > 0 && r == SetCache(s, t, Cache(id, []))
    case Refill =>
      && cache.id in s.pools && j < |s.pools[cache.id].shards| && cache.slots == []
      && var pool := s.pools[cache.id];
         var shard := pool.shards[j];
         var n := RefillCount(shard, cache.slots, pool.batch);
         r == SetCache(
           SetPool(s, cache.id, SetShard(pool, j, RefilledShard(shard, cache.slots, pool.batch))
                                  .(places := Moved(pool.places, shard[|shard| - n..], InCache(t)))),
           t, cache.(slots := RefilledSlots(shard, cache.slots, pool.batch)))
    case TakeCached =>
      && cache.id in s.pools && cache.slots != []
      && var pool := s.pools[cache.id];
         var x := cache.slots[|cache.slots| - 1];
         r == SetCache(
           SetPool(s, cache.id, pool.(held := pool.held + {x}, places := Moved(pool.places, [x], Held))),
           t, cache.(slots := cache.slots[..|cache.slots| - 1]))
    case TakeShared(id) =>
      && id in s.pools && s.pools[id].batch == 0 && j < |s.pools[id].shards| && s.pools[id].shards[j] != []
      && var pool := s.pools[id];
         var shard := pool.shards[j];
         var x := shard[|shard| - 1];
         r == SetPool(s, id, SetShard(pool, j, shard[..|shard| - 1])
                               .(held := pool.held + {x}, places := Moved(pool.places, [x], Held)))
    case Spill =>
      && cache.id in s.pools && j < |s.pools[cache.id].shards| && |cache.slots| == 2 * s.pools[cache.id].batch
      && var pool := s.pools[cache.id];
         r == SetCache(
           SetPool(s, cache.id, SetShard(pool, j, pool.shards[j] + cache.slots[..pool.batch])
                                  .(places := Moved(pool.places, cache.slots[..pool.batch], InShard(j)))),
           t, cache.(slots := cache.slots[pool.batch..]))
    case GiveCached(x) =>
      && cache.id in s.pools && x in s.pools[cache.id].held && |cache.slots| < 2 * s.pools[cache.id].batch
      && var pool := s.pools[cache.id];
         r == SetCache(
           SetPool(s, cache.id, pool.(held := pool.held - {x}, places := Moved(pool.places, [x], InCache(t)))),
           t, cache.(slots := cache.slots + [x]))
    case GiveShared(id, x) =>
      && id in s.pools && s.pools[id].batch == 0 && x in s.pools[id].held && j < |s.pools[id].shards|
      && var pool := s.pools[id];
         r == SetPool(s, id, SetShard(pool, j, pool.shards[j] + [x])
                               .(held := pool.held - {x}, places := Moved(pool.places, [x], InShard(j))))
  }

  ghost predicate Next(s: Sys, r: Sys) {
    exists t: Thread, j: nat, action: Action :: Step(s, r, t, j, action)
  }

  ghost predicate Init(s: Sys) { s == Sys(map[], map[], 1) }

  ghost predicate Follows(run: seq<Sys>, i: nat)
    requires 0 < i < |run|
  {
    Next(run[i - 1], run[i])
  }

  ghost predicate Run(run: seq<Sys>) {
    && run != [] && Init(run[0])
    && forall i | 0 < i < |run| :: Follows(run, i)
  }

  // --------------------------------------------------------------- invariant

  /** Everything in `list` is a slot of the pool whose place is `place`, and nothing is in it twice. */
  predicate Lists(pool: Pool, list: seq<nat>, place: Place) {
    Distinct(list) && forall x | x in list :: x < |pool.places| && pool.places[x] == place
  }

  ghost predicate PoolOk(pool: Pool) {
    && |pool.shards| == SHARD_COUNT && |pool.places| == pool.capacity && pool.batch <= pool.capacity / 64
    && (forall j | 0 <= j < SHARD_COUNT :: Lists(pool, pool.shards[j], InShard(j)))
    && (forall x | 0 <= x < pool.capacity && pool.places[x].InShard? ::
          pool.places[x].shard < SHARD_COUNT && x in pool.shards[pool.places[x].shard])
    && (forall x :: x in pool.held <==> 0 <= x < pool.capacity && pool.places[x].Held?)
  }

  ghost predicate CacheOk(s: Sys, t: Thread) {
    var cache := CacheOf(s, t);
    && cache.id < s.nextId && (cache.id == 0 ==> cache.slots == [])
    && (cache.id in s.pools ==>
          && 0 < s.pools[cache.id].batch && |cache.slots| <= 2 * s.pools[cache.id].batch
          && Lists(s.pools[cache.id], cache.slots, InCache(t)))
  }

  /** A slot that is in a cache is in that very cache, and the cache is for this pool. */
  ghost predicate CachedOk(s: Sys, id: PoolId)
    requires id in s.pools
  {
    forall x | 0 <= x < |s.pools[id].places| && s.pools[id].places[x].InCache? ::
      var cache := CacheOf(s, s.pools[id].places[x].thread); cache.id == id && x in cache.slots
  }

  ghost predicate Inv(s: Sys) {
    && s.nextId > 0
    && (forall id | id in s.pools :: 0 < id < s.nextId && PoolOk(s.pools[id]) && CachedOk(s, id))
    && (forall t: Thread :: CacheOk(s, t))
  }
}
