/** The slot pool's operations, in place: the loops over shards and over a thread's cache. */
module SlotPools {
  import opened SlotPoolModel

  // ------------------------------------------------- what the operations compute

  /** The `k`-th list to look at, from `home` round all sixteen. */
  function Ring(home: nat, k: nat): (j: nat)
    ensures j < SHARD_COUNT
  { (home + k) % SHARD_COUNT }

  /** The first non-empty list, after `offset` empty ones; sixteen if there is none. */
  function FirstNonEmpty(shards: seq<seq<nat>>, home: nat, offset: nat): (j: nat)
    requires |shards| == SHARD_COUNT && offset <= SHARD_COUNT
    ensures j < SHARD_COUNT ==> shards[j] != []
    ensures j >= SHARD_COUNT ==> forall k | offset <= k < SHARD_COUNT :: shards[Ring(home, k)] == []
    decreases SHARD_COUNT - offset
  {
    if offset == SHARD_COUNT then SHARD_COUNT
    else if shards[Ring(home, offset)] != [] then Ring(home, offset)
    else FirstNonEmpty(shards, home, offset + 1)
  }

  /** What `refill_cache` makes of an empty cache: its slots, and the lists. */
  function Refilled(shards: seq<seq<nat>>, home: nat, slots: seq<nat>, batch: nat): (seq<seq<nat>>, seq<nat>)
    requires |shards| == SHARD_COUNT
  {
    var j := FirstNonEmpty(shards, home, 0);
    if j >= SHARD_COUNT then (shards, slots)
    else (shards[j := RefilledShard(shards[j], slots, batch)], RefilledSlots(shards[j], slots, batch))
  }

  /** A refill comes back empty-handed only when every list of the pool is empty. */
  lemma RefillFindsAny(shards: seq<seq<nat>>, home: nat, batch: nat)
    requires |shards| == SHARD_COUNT && batch > 0
    ensures Refilled(shards, home, [], batch).1 == [] <==> forall j | 0 <= j < SHARD_COUNT :: shards[j] == []
  {
    var j := FirstNonEmpty(shards, home, 0);
    if j >= SHARD_COUNT {
      forall i | 0 <= i < SHARD_COUNT ensures shards[i] == [] { RingReaches(home, i); }
    }
  }

  /** A scan settles on the first list with anything in it, counted up from its own and round: its own if there is anything there. */
  lemma ScanStartsAtHome(shards: seq<seq<nat>>, home: nat, j: nat)
    requires |shards| == SHARD_COUNT && home < SHARD_COUNT && j == FirstNonEmpty(shards, home, 0)
    ensures shards[home] != [] ==> j == home
    ensures forall i | 0 <= i < SHARD_COUNT && Distance(home, i) < Distance(home, j) :: shards[i] == []
  {
    hide Ring, FirstNonEmpty;
    PassedOver(shards, home, 0);
    forall i | 0 <= i < SHARD_COUNT && Distance(home, i) < Distance(home, j) ensures shards[i] == [] { RingAt(home, i); }
  }

  lemma RingAt(home: nat, i: nat)
    requires home < SHARD_COUNT && i < SHARD_COUNT
    ensures Distance(home, i) < SHARD_COUNT && Ring(home, Distance(home, i)) == i
  {
  }

  /** Everything looked at before the list that is found is empty. */
  lemma {:induction false} PassedOver(shards: seq<seq<nat>>, home: nat, offset: nat)
    requires |shards| == SHARD_COUNT && offset <= SHARD_COUNT && home < SHARD_COUNT
    ensures var j := FirstNonEmpty(shards, home, offset);
      forall k | offset <= k < SHARD_COUNT && Distance(home, j) > k :: shards[Ring(home, k)] == []
    decreases SHARD_COUNT - offset
  {
    if offset < SHARD_COUNT {
      if shards[Ring(home, offset)] == [] { PassedOver(shards, home, offset + 1); }
    }
  }

  /** How many steps up from `home` list `j` is; sixteen if there is none. */
  function Distance(home: nat, j: nat): nat
    requires home < SHARD_COUNT
  { if j >= SHARD_COUNT then SHARD_COUNT else if j >= home then j - home else j + SHARD_COUNT - home }

  lemma RingReaches(home: nat, i: nat)
    requires i < SHARD_COUNT
    ensures exists k :: 0 <= k < SHARD_COUNT && Ring(home, k) == i
  {
    var k := (i - home) % SHARD_COUNT;
    assert Ring(home, k) == i;
  }

  /** `shards` with `list` appended to list `home`. */
  function AppendTo(shards: seq<seq<nat>>, home: nat, list: seq<nat>): (r: seq<seq<nat>>)
    requires home < |shards|
    ensures |r| == |shards|
  {
    shards[home := shards[home] + list]
  }

  lemma AppendStep(shards: seq<seq<nat>>, home: nat, slots: seq<nat>, i: nat)
    requires home < |shards| && i < |slots|
    ensures AppendTo(shards, home, slots[..0]) == shards
    ensures AppendTo(AppendTo(shards, home, slots[..i]), home, [slots[i]]) == AppendTo(shards, home, slots[..i + 1])
  {
    AppendNothing(shards, home);
    assert slots[..0] == [] && slots[..i + 1] == slots[..i] + [slots[i]];
    assert (shards[home] + slots[..i]) + [slots[i]] == shards[home] + slots[..i + 1];
  }

  lemma AppendNothing(shards: seq<seq<nat>>, home: nat)
    requires home < |shards|
    ensures AppendTo(shards, home, []) == shards
  {
    assert shards[home] + [] == shards[home];
  }

  class ThreadCache {
    var id: PoolId
    var count: nat
    const slots: array<nat>

    ghost predicate Valid()
      reads this
    {
      slots.Length == 2 * MAX_BATCH && count <= slots.Length
    }

    ghost function Value(): Cache
      requires Valid()
      reads this, slots
    {
      Cache(id, slots[..count])
    }

    constructor ()
      ensures Valid() && Value() == NO_CACHE && fresh(slots)
    {
      id, count := 0, 0;
      slots := new nat[2 * MAX_BATCH];
    }
  }

  class TaskPool {
    const id: PoolId
    const capacity: nat
    const batch: nat
    var shards: seq<seq<nat>>

    ghost predicate Valid()
      reads this
    {
      id > 0 && |shards| == SHARD_COUNT && batch <= MAX_BATCH
    }

    constructor (id: PoolId, capacity: nat, threadCache: bool)
      requires id > 0
      ensures Valid() && this.id == id && this.capacity == capacity
      ensures batch == BatchFor(capacity, threadCache) && shards == Dealt(capacity, 0)
    {
      this.id, this.capacity := id, capacity;
      batch := BatchFor(capacity, threadCache);
      shards := seq(SHARD_COUNT, i => []);
      new;
      for i := capacity downto 0
        modifies this
        invariant shards == Dealt(capacity, i)
      {
        shards := shards[i % SHARD_COUNT := shards[i % SHARD_COUNT] + [i]];
      }
    }

    /** From the back of one list into the cache, until the cache has a batch or the list is empty. */
    method TakeFrom(cache: ThreadCache, j: nat)
      requires Valid() && cache.Valid() && j < SHARD_COUNT && cache.count == 0
      modifies this, cache, cache.slots
      ensures Valid() && cache.Valid() && cache.id == old(cache.id)
      ensures shards == old(shards)[j := RefilledShard(old(shards)[j], [], batch)]
      ensures cache.Value().slots == RefilledSlots(old(shards)[j], [], batch)
    {
      ghost var shard := shards[j];
      while cache.count < batch && shards[j] != []
        invariant cache.Valid() && cache.id == old(cache.id) && |shards| == SHARD_COUNT
        invariant cache.count <= batch && cache.count <= |shard| && shards[j] == shard[..|shard| - cache.count]
        invariant forall i | 0 <= i < SHARD_COUNT && i != j :: shards[i] == old(shards)[i]
        invariant forall k | 0 <= k < cache.count :: cache.slots[k] == shard[|shard| - 1 - k]
        decreases batch - cache.count
      {
        var last := |shards[j]| - 1;
        cache.slots[cache.count] := shards[j][last];
        cache.count := cache.count + 1;
        shards := shards[j := shards[j][..last]];
      }
      assert cache.slots[..cache.count] == [] + Backwards(shard[|shard| - cache.count..]);
      assert shards == old(shards)[j := shard[..|shard| - cache.count]];
    }

    /** Called on an empty cache: fills it from the first list that has anything. */
    method RefillCache(cache: ThreadCache, home: nat)
      requires Valid() && cache.Valid() && home < SHARD_COUNT && cache.count == 0
      modifies this, cache, cache.slots
      ensures Valid() && cache.Valid() && cache.id == old(cache.id)
      ensures (shards, cache.Value().slots) == Refilled(old(shards), home, [], batch)
    {
      for offset := 0 to SHARD_COUNT
        invariant shards == old(shards) && cache.Valid() && cache.id == old(cache.id) && cache.count == 0
        invariant FirstNonEmpty(shards, home, 0) == FirstNonEmpty(shards, home, offset)
      {
        var j := Ring(home, offset);
        if shards[j] != [] {
          TakeFrom(cache, j);
          return;
        }
      }
    }

    /** The older half goes to the home list, the younger moves down. */
    method SpillCache(cache: ThreadCache, home: nat)
      requires Valid() && cache.Valid() && home < SHARD_COUNT && cache.count == 2 * batch
      modifies this, cache, cache.slots
      ensures Valid() && cache.Valid() && cache.id == old(cache.id)
      ensures shards == AppendTo(old(shards), home, old(cache.Value()).slots[..batch])
      ensures cache.Value().slots == old(cache.Value()).slots[batch..]
    {
      ghost var slots := cache.Value().slots;
      AppendNothing(shards, home);
      for i := 0 to batch
        modifies this
        invariant Valid() && shards == AppendTo(old(shards), home, slots[..i])
      {
        AppendStep(old(shards), home, slots, i);
        shards := shards[home := shards[home] + [cache.slots[i]]];
      }
      for i := batch to cache.count
        modifies cache.slots
        invariant forall k | 0 <= k < i - batch :: cache.slots[k] == slots[batch + k]
        invariant forall k | i <= k < cache.count :: cache.slots[k] == slots[k]
      {
        cache.slots[i - batch] := cache.slots[i];
      }
      cache.count := cache.count - batch;
    }
  }

  /** The pools that are alive, by their never-reused id. */
  class Registry {
    var pools: map<PoolId, TaskPool>

    ghost predicate Valid()
      reads this, Pools()
    {
      forall id | id in pools :: pools[id].id == id && pools[id].Valid()
    }

    ghost function Pools(): set<object>
      reads this
    {
      set id | id in pools :: pools[id]
    }

    constructor ()
      ensures Valid() && pools == map[]
    {
      pools := map[];
    }
  }

  /** The cache's slots go to its pool's home list if the pool is alive, and nowhere if it is not. */
  method DrainCache(registry: Registry, cache: ThreadCache, home: nat)
    requires registry.Valid() && cache.Valid() && home < SHARD_COUNT
    modifies cache, registry.Pools()
    ensures registry.Valid() && cache.Valid() && cache.Value() == NO_CACHE
    ensures forall id | id in registry.pools ::
      registry.pools[id].shards == AppendTo(old(registry.pools[id].shards), home,
                                            if id == old(cache.id) then old(cache.Value()).slots else [])
  {
    forall id | id in registry.pools ensures AppendTo(registry.pools[id].shards, home, []) == registry.pools[id].shards {
      AppendNothing(registry.pools[id].shards, home);
    }
    if cache.count != 0 && cache.id in registry.pools {
      var pool := registry.pools[cache.id];
      ghost var slots := cache.Value().slots;
      for i := 0 to cache.count
        modifies pool
        invariant pool.Valid() && pool.shards == AppendTo(old(pool.shards), home, slots[..i])
      {
        AppendStep(old(pool.shards), home, slots, i);
        pool.shards := pool.shards[home := pool.shards[home] + [cache.slots[i]]];
      }
      assert slots[..cache.count] == slots;
    }
    cache.count, cache.id := 0, 0;
  }

  /** The cache follows the pool used last. */
  method RebindCache(registry: Registry, pool: TaskPool, cache: ThreadCache, home: nat)
    requires registry.Valid() && cache.Valid() && pool.Valid() && home < SHARD_COUNT && cache.id != pool.id
    requires forall id | id in registry.pools && registry.pools[id] == pool :: id == pool.id
    modifies cache, registry.Pools()
    ensures registry.Valid() && cache.Valid() && cache.Value() == Cache(pool.id, [])
    ensures pool.Valid() && pool.shards == old(pool.shards)
    ensures forall id | id in registry.pools ::
      registry.pools[id].shards == AppendTo(old(registry.pools[id].shards), home,
                                            if id == old(cache.id) then old(cache.Value()).slots else [])
  {
    DrainCache(registry, cache, home);
    AppendNothing(old(pool.shards), home);
    assert pool in registry.Pools() ==> pool.id in registry.pools && registry.pools[pool.id] == pool;
    cache.id := pool.id;
  }

  /** What is left once `take_free_slot` has made sure of a cache for this pool. */
  function Ready(shards: seq<seq<nat>>, home: nat, slots: seq<nat>, batch: nat): (seq<seq<nat>>, seq<nat>)
    requires |shards| == SHARD_COUNT
  {
    if slots == [] then Refilled(shards, home, [], batch) else (shards, slots)
  }

  /** A slot from the cache, filled first if need be; from the lists directly if the pool has no caches. */
  method TakeFreeSlot(registry: Registry, pool: TaskPool, cache: ThreadCache, home: nat) returns (found: bool, slot: nat)
    requires registry.Valid() && cache.Valid() && pool.Valid() && home < SHARD_COUNT
    requires forall id | id in registry.pools && registry.pools[id] == pool :: id == pool.id
    modifies cache, cache.slots, pool, registry.Pools()
    ensures registry.Valid() && cache.Valid() && pool.Valid()
    ensures pool.batch > 0 ==>
      var ready := Ready(old(pool.shards), home, if old(cache.id) == pool.id then old(cache.Value()).slots else [], pool.batch);
      && found == (ready.1 != []) && pool.shards == ready.0 && cache.id == pool.id
      && cache.Value().slots == (if found then ready.1[..|ready.1| - 1] else [])
      && (found ==> slot == ready.1[|ready.1| - 1])
    ensures pool.batch == 0 ==>
      var j := FirstNonEmpty(old(pool.shards), home, 0);
      && found == (j < SHARD_COUNT) && cache.Value() == old(cache.Value())
      && (!found ==> pool.shards == old(pool.shards))
      && (found ==>
            var shard := old(pool.shards)[j];
            slot == shard[|shard| - 1] && pool.shards == old(pool.shards)[j := shard[..|shard| - 1]])
    ensures !found ==> forall j | 0 <= j < SHARD_COUNT :: pool.shards[j] == []
  {
    slot := 0;
    if pool.batch != 0 {
      if cache.id != pool.id {
        RebindCache(registry, pool, cache, home);
      }
      if cache.count == 0 {
        RefillFindsAny(pool.shards, home, pool.batch);
        pool.RefillCache(cache, home);
      }
      if cache.count == 0 {
        return false, slot;
      }
      cache.count := cache.count - 1;
      slot := cache.slots[cache.count];
      return true, slot;
    }

    for offset := 0 to SHARD_COUNT
      invariant pool.shards == old(pool.shards) && cache.Value() == old(cache.Value())
      invariant FirstNonEmpty(pool.shards, home, 0) == FirstNonEmpty(pool.shards, home, offset)
    {
      var j := Ring(home, offset);
      if pool.shards[j] != [] {
        var last := |pool.shards[j]| - 1;
        slot := pool.shards[j][last];
        pool.shards := pool.shards[j := pool.shards[j][..last]];
        return true, slot;
      }
    }
    forall i | 0 <= i < SHARD_COUNT ensures pool.shards[i] == [] { RingReaches(home, i); }
    return false, slot;
  }

  /** The end of `release`: the slot goes to the releasing thread. */
  method GiveSlot(registry: Registry, pool: TaskPool, cache: ThreadCache, home: nat, slot: nat)
    requires registry.Valid() && cache.Valid() && pool.Valid() && home < SHARD_COUNT
    requires forall id | id in registry.pools && registry.pools[id] == pool :: id == pool.id
    requires cache.id == pool.id ==> cache.count <= 2 * pool.batch
    modifies cache, cache.slots, pool, registry.Pools()
    ensures registry.Valid() && cache.Valid() && pool.Valid()
    ensures pool.batch > 0 ==>
      var slots := if old(cache.id) == pool.id then old(cache.Value()).slots else [];
      && cache.id == pool.id && cache.count <= 2 * pool.batch
      && (if |slots| == 2 * pool.batch then
            && cache.Value().slots == slots[pool.batch..] + [slot]
            && pool.shards == AppendTo(old(pool.shards), home, slots[..pool.batch])
          else cache.Value().slots == slots + [slot] && pool.shards == old(pool.shards))
    ensures pool.batch == 0 ==>
      pool.shards == AppendTo(old(pool.shards), home, [slot]) && cache.Value() == old(cache.Value())
  {
    if pool.batch != 0 {
      if cache.id != pool.id {
        RebindCache(registry, pool, cache, home);
      }
      if cache.count == 2 * pool.batch {
        pool.SpillCache(cache, home);
      }
      cache.slots[cache.count] := slot;
      cache.count := cache.count + 1;
      return;
    }
    pool.shards := pool.shards[home := pool.shards[home] + [slot]];
  }
}
