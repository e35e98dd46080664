/** The double-buffered world: seeding, the serial tick, and many ticks. */
module Worlds {
  import opened FrameModel
  import opened Systems
  import StageMachine

  const WORLD_SIZE := 5000.0
  const TWO_PI := 6.2831853

  /** `random_range(seed, index, low, high, salt)`. */
  type Random = (nat, nat, real, real, nat) -> real

  const ORIGIN := Vec3(0.0, 0.0, 0.0)
  const BLANK_VEHICLE := Vehicle(ORIGIN, ORIGIN, 0.0, 0.0, 0.0, 0.0, 0.0, 1500.0, Full, 0)
  const BLANK_NPC := Npc(ORIGIN, ORIGIN, ORIGIN, 0.0, 0, Full, 0.0, 0)
  const BLANK_AIRCRAFT := Aircraft(ORIGIN, ORIGIN, 0.0, 0.0, 0.0, 0.0, 1.225, 0.0, 0.0, 0.0, 60000.0)

  function SeedVehicle(random: Random, seed: nat, i: nat): Vehicle {
    BLANK_VEHICLE.(
      position := Vec3(random(seed, i, 0.0, WORLD_SIZE, 1), 0.0, random(seed, i, 0.0, WORLD_SIZE, 2)),
      heading := random(seed, i, 0.0, TWO_PI, 3), throttle := random(seed, i, 0.2, 1.0, 4),
      mass := random(seed, i, 900.0, 2600.0, 5), lane := i % 4, engineRpm := 800.0)
  }

  function SeedNpc(random: Random, seed: nat, i: nat): Npc {
    BLANK_NPC.(
      position := Vec3(random(seed, i, 0.0, WORLD_SIZE, 11), 0.0, random(seed, i, 0.0, WORLD_SIZE, 12)),
      target := Vec3(random(seed, i, 0.0, WORLD_SIZE, 13), 0.0, random(seed, i, 0.0, WORLD_SIZE, 14)),
      speed := random(seed, i, 0.8, 2.2, 15), behaviour := i % 3)
  }

  function SeedAircraft(random: Random, seed: nat, i: nat): Aircraft {
    var altitude := random(seed, i, 300.0, 9000.0, 22);
    BLANK_AIRCRAFT.(
      position := Vec3(random(seed, i, 0.0, WORLD_SIZE, 21), altitude, random(seed, i, 0.0, WORLD_SIZE, 23)),
      altitude := altitude, heading := random(seed, i, 0.0, TWO_PI, 24),
      throttle := random(seed, i, 0.5, 1.0, 25), mass := random(seed, i, 1200.0, 250000.0, 26),
      velocity := Vec3(random(seed, i, 60.0, 240.0, 27), 0.0, 0.0))
  }

  /** The initial state: each entity a function of the seed and its own index. */
  function Seeded(random: Random, seed: nat, vehicles: nat, npcs: nat, aircraft: nat): State {
    State(seq(vehicles, i requires 0 <= i < vehicles => SeedVehicle(random, seed, i)),
          seq(npcs, i requires 0 <= i < npcs => SeedNpc(random, seed, i)),
          seq(aircraft, i requires 0 <= i < aircraft => SeedAircraft(random, seed, i)),
          Vec3(WORLD_SIZE * 0.5, 0.0, WORLD_SIZE * 0.5))
  }

  predicate InWorld(position: Vec3) { 0.0 <= position.x <= WORLD_SIZE && 0.0 <= position.z <= WORLD_SIZE }

  /** Wherever the draws fall in their ranges, the world begins with every entity inside it and every field in bounds. */
  lemma SeededInBounds(random: Random, seed: nat, vehicles: nat, npcs: nat, aircraft: nat)
    requires forall s: nat, i: nat, low: real, high: real, salt: nat | low <= high :: low <= random(s, i, low, high, salt) <= high
    ensures var state := Seeded(random, seed, vehicles, npcs, aircraft);
      && |state.vehicles| == vehicles && |state.npcs| == npcs && |state.aircraft| == aircraft && InWorld(state.player)
      && (forall i | 0 <= i < vehicles ::
            var v := state.vehicles[i];
            InWorld(v.position) && v.position.y == 0.0 && v.velocity == ORIGIN && 0.2 <= v.throttle <= 1.0
            && 900.0 <= v.mass <= 2600.0 && 0.0 <= v.heading <= TWO_PI && v.lane < 4)
      && (forall i | 0 <= i < npcs ::
            var n := state.npcs[i]; InWorld(n.position) && InWorld(n.target) && 0.8 <= n.speed <= 2.2 && n.behaviour < 3)
      && (forall i | 0 <= i < aircraft ::
            var a := state.aircraft[i];
            InWorld(a.position) && a.position.y == a.altitude && 300.0 <= a.altitude <= 9000.0
            && 60.0 <= a.velocity.x <= 240.0 && 1200.0 <= a.mass <= 250000.0 && 0.5 <= a.throttle <= 1.0)
  {
  }

  /** Entities up to `end` have been through their chain. */
  lemma BatchDone<E>(f: (nat, nat, E) -> E, n: nat, begin: nat, end: nat, start: seq<E>, before: seq<E>, after: seq<E>)
    requires Chained(f, n, 0, begin, start, before) && Chained(f, n, begin, end, before, after) && begin <= end
    ensures Chained(f, n, 0, end, start, after)
  {
  }

  method SeedInitialState(random: Random, seed: nat, vehicles: nat, npcs: nat, aircraft: nat) returns (state: WorldState)
    ensures fresh(state) && fresh(state.vehicles) && fresh(state.npcs) && fresh(state.aircraft)
    ensures state.Value() == Seeded(random, seed, vehicles, npcs, aircraft)
  {
    var vs := new Vehicle[vehicles](_ => BLANK_VEHICLE);
    var ns := new Npc[npcs](_ => BLANK_NPC);
    var acs := new Aircraft[aircraft](_ => BLANK_AIRCRAFT);
    state := new WorldState(vs, ns, acs, Vec3(WORLD_SIZE * 0.5, 0.0, WORLD_SIZE * 0.5));
    ghost var goal := Seeded(random, seed, vehicles, npcs, aircraft);
    for i := 0 to vehicles
      modifies vs
      invariant vs[..i] == goal.vehicles[..i]
    {
      vs[i] := SeedVehicle(random, seed, i);
    }
    for i := 0 to npcs
      modifies ns
      invariant ns[..i] == goal.npcs[..i]
    {
      ns[i] := SeedNpc(random, seed, i);
    }
    for i := 0 to aircraft
      modifies acs
      invariant acs[..i] == goal.aircraft[..i]
    {
      acs[i] := SeedAircraft(random, seed, i);
    }
    assert vs[..] == goal.vehicles && ns[..] == goal.npcs && acs[..] == goal.aircraft;
  }

  method CopyOf(state: WorldState) returns (copy: WorldState)
    ensures fresh(copy) && fresh(copy.vehicles) && fresh(copy.npcs) && fresh(copy.aircraft)
    ensures copy.Value() == state.Value()
  {
    var vs, ns, acs := state.vehicles, state.npcs, state.aircraft;
    var vs2 := new Vehicle[vs.Length](i requires 0 <= i < vs.Length reads vs => vs[i]);
    var ns2 := new Npc[ns.Length](i requires 0 <= i < ns.Length reads ns => ns[i]);
    var acs2 := new Aircraft[acs.Length](i requires 0 <= i < acs.Length reads acs => acs[i]);
    copy := new WorldState(vs2, ns2, acs2, state.player);
    assert vs2[..] == vs[..] && ns2[..] == ns[..] && acs2[..] == acs[..];
  }

  class World {
    var current: WorldState
    var next: WorldState
    const seed: nat
    var tick: nat

    ghost predicate Valid()
      reads this, current, next
    {
      Apart(current, next)
    }

    ghost function Footprint(): set<object>
      reads this
    {
      {this, current, current.vehicles, current.npcs, current.aircraft, next, next.vehicles, next.npcs, next.aircraft}
    }

    constructor (random: Random, vehicles: nat, npcs: nat, aircraft: nat, seed: nat)
      ensures Valid() && fresh(Footprint()) && tick == 0 && this.seed == seed
      ensures current.Value() == next.Value() == Seeded(random, seed, vehicles, npcs, aircraft)
    {
      var seeded := SeedInitialState(random, seed, vehicles, npcs, aircraft);
      var copy := CopyOf(seeded);
      current, next := seeded, copy;
      this.seed := seed;
      tick := 0;
    }

    method SwapBuffers()
      modifies `current, `next
      ensures current == old(next) && next == old(current)
    {
      current, next := next, current;
    }

    method AdvanceTick()
      modifies `tick
      ensures tick == old(tick) + 1
    {
      tick := tick + 1;
    }

    /** One tick on the calling thread, batch by batch: the frame function, and the buffers swapped. */
    method TickSerial(k: Kernels)
      requires Valid()
      modifies Footprint()
      ensures Valid() && Footprint() == old(Footprint())
      ensures current == old(next) && next == old(current)
      ensures current.Value() == Frame(k, old(current.Value())) && next.Value() == old(current.Value())
      ensures tick == old(tick) + 1
    {
      var input, output := current, next;
      ghost var value := input.Value();
      output.player := input.player;
      RunVehicles(k, input, output);
      RunNpcs(k, input, output);
      RunAircraft(k, input, output);
      assert output.Value() == Frame(k, value) by { ChainsAreFrame(k, value, output.Value()); }
      SwapBuffers();
      AdvanceTick();
    }

    /** `n` ticks are `n` applications of the frame function. */
    method Simulate(k: Kernels, n: nat)
      requires Valid()
      modifies Footprint()
      ensures Valid() && tick == old(tick) + n && current.Value() == Frames(k, old(current.Value()), n)
    {
      for i := 0 to n
        invariant Valid() && Footprint() == old(Footprint()) && tick == old(tick) + i
        invariant current.Value() == Frames(k, old(current.Value()), i)
      {
        TickSerial(k);
      }
    }
  }

  /** Every record of `out` has been through its chain, starting from something. */
  ghost predicate AllChained<E(!new)>(f: (nat, nat, E) -> E, n: nat, out: seq<E>) {
    exists before: seq<E> :: Chained(f, n, 0, |out|, before, out)
  }

  lemma ChainsAreFrame(k: Kernels, input: State, out: State)
    requires |out.vehicles| == |input.vehicles| && |out.npcs| == |input.npcs| && |out.aircraft| == |input.aircraft|
    requires out.player == input.player
    requires AllChained(VehicleStages(k, input), VEHICLE_STAGES, out.vehicles)
    requires AllChained(NpcStages(k, input), NPC_STAGES, out.npcs)
    requires AllChained(AircraftStages(k, input), AIRCRAFT_STAGES, out.aircraft)
    ensures out == Frame(k, input)
  {
    var vs :| Chained(VehicleStages(k, input), VEHICLE_STAGES, 0, |out.vehicles|, vs, out.vehicles);
    var ns :| Chained(NpcStages(k, input), NPC_STAGES, 0, |out.npcs|, ns, out.npcs);
    var acs :| Chained(AircraftStages(k, input), AIRCRAFT_STAGES, 0, |out.aircraft|, acs, out.aircraft);
    forall i | 0 <= i < |out.vehicles| ensures out.vehicles[i] == NextVehicle(k, input, i) {
      VehicleChainIsFrame(k, input, i, vs[i]);
    }
    forall i | 0 <= i < |out.npcs| ensures out.npcs[i] == NextNpc(k, input, i) {
      NpcChainIsFrame(k, input, i, ns[i]);
    }
    forall i | 0 <= i < |out.aircraft| ensures out.aircraft[i] == NextAircraft(k, input, i) {
      AircraftChainIsFrame(k, input, i, acs[i]);
    }
  }

  method RunVehicles(k: Kernels, input: WorldState, output: WorldState)
    requires Apart(input, output)
    modifies output.vehicles
    ensures AllChained(VehicleStages(k, input.Value()), VEHICLE_STAGES, output.vehicles[..])
  {
    ghost var value, start := input.Value(), output.vehicles[..];
    var count := output.vehicles.Length;
    for b := 0 to StageMachine.BatchCountFor(count)
      invariant input.Value() == value
      invariant Chained(VehicleStages(k, value), VEHICLE_STAGES, 0, Upto(b, count), start, output.vehicles[..])
    {
      ghost var before := output.vehicles[..];
      var begin, end := b * BATCH_SIZE, StageMachine.BatchEnd(b, count);
      UpdateVehicleChain(k, input, output, begin, end);
      BatchDone(VehicleStages(k, value), VEHICLE_STAGES, begin, end, start, before, output.vehicles[..]);
    }
  }

  method RunNpcs(k: Kernels, input: WorldState, output: WorldState)
    requires Apart(input, output)
    modifies output.npcs
    ensures AllChained(NpcStages(k, input.Value()), NPC_STAGES, output.npcs[..])
  {
    ghost var value, start := input.Value(), output.npcs[..];
    var count := output.npcs.Length;
    for b := 0 to StageMachine.BatchCountFor(count)
      invariant input.Value() == value
      invariant Chained(NpcStages(k, value), NPC_STAGES, 0, Upto(b, count), start, output.npcs[..])
    {
      ghost var before := output.npcs[..];
      var begin, end := b * BATCH_SIZE, StageMachine.BatchEnd(b, count);
      UpdateNpcChain(k, input, output, begin, end);
      BatchDone(NpcStages(k, value), NPC_STAGES, begin, end, start, before, output.npcs[..]);
    }
  }

  method RunAircraft(k: Kernels, input: WorldState, output: WorldState)
    requires Apart(input, output)
    modifies output.aircraft
    ensures AllChained(AircraftStages(k, input.Value()), AIRCRAFT_STAGES, output.aircraft[..])
  {
    ghost var value, start := input.Value(), output.aircraft[..];
    var count := output.aircraft.Length;
    for b := 0 to StageMachine.BatchCountFor(count)
      invariant input.Value() == value
      invariant Chained(AircraftStages(k, value), AIRCRAFT_STAGES, 0, Upto(b, count), start, output.aircraft[..])
    {
      ghost var before := output.aircraft[..];
      var begin, end := b * BATCH_SIZE, StageMachine.BatchEnd(b, count);
      UpdateAircraftChain(k, input, output, begin, end);
      BatchDone(AircraftStages(k, value), AIRCRAFT_STAGES, begin, end, start, before, output.aircraft[..]);
    }
  }

  /** Where the first `b` batches end. */
  function Upto(b: nat, count: nat): nat { if b * BATCH_SIZE < count then b * BATCH_SIZE else count }
}
