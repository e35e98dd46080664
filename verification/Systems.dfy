/** The stage kernels' loops, in place on the buffer of the next frame. */
module Systems {
  import opened Basics
  import opened FrameModel

  /** One complete simulation state. The source keeps one array per field; here an entity is one record. */
  class WorldState {
    const vehicles: array<Vehicle>
    const npcs: array<Npc>
    const aircraft: array<Aircraft>
    var player: Vec3

    constructor (vehicles: array<Vehicle>, npcs: array<Npc>, aircraft: array<Aircraft>, player: Vec3)
      ensures this.vehicles == vehicles && this.npcs == npcs && this.aircraft == aircraft && this.player == player
    {
      this.vehicles, this.npcs, this.aircraft, this.player := vehicles, npcs, aircraft, player;
    }

    ghost function Value(): State
      reads this, vehicles, npcs, aircraft
    {
      State(vehicles[..], npcs[..], aircraft[..], player)
    }
  }

  /** The two buffers share nothing and hold the same numbers of entities. */
  predicate Apart(input: WorldState, output: WorldState) {
    && input != output && input.vehicles != output.vehicles && input.npcs != output.npcs
    && input.aircraft != output.aircraft && input.vehicles.Length == output.vehicles.Length
    && input.npcs.Length == output.npcs.Length && input.aircraft.Length == output.aircraft.Length
  }

  /** One stage has been applied to the entities from `begin` to `end`, and the others left alone. */
  ghost predicate Applied<E>(f: (nat, nat, E) -> E, stage: nat, begin: nat, end: nat, before: seq<E>, after: seq<E>) {
    && |after| == |before|
    && forall i | 0 <= i < |before| :: after[i] == if begin <= i < end then f(stage, i, before[i]) else before[i]
  }

  /** The first `n` stages have been. */
  ghost predicate Chained<E>(f: (nat, nat, E) -> E, n: nat, begin: nat, end: nat, before: seq<E>, after: seq<E>) {
    && |after| == |before|
    && forall i | 0 <= i < |before| :: after[i] == if begin <= i < end then Chain(f, n, i, before[i]) else before[i]
  }

  lemma ChainsOn<E>(f: (nat, nat, E) -> E, n: nat, begin: nat, end: nat, before: seq<E>, between: seq<E>, after: seq<E>)
    requires Chained(f, n, begin, end, before, between) && Applied(f, n, begin, end, between, after)
    ensures Chained(f, n + 1, begin, end, before, after)
  {
  }

  // ---------------------------------------------------------------- vehicles

  method UpdateVehicleLod(k: Kernels, input: WorldState, output: WorldState, begin: nat, end: nat)
    requires Apart(input, output) && begin <= end <= output.vehicles.Length
    modifies output.vehicles
    ensures Applied(VehicleStages(k, input.Value()), 0, begin, end, old(output.vehicles[..]), output.vehicles[..])
  {
    ghost var value := input.Value();
    for i := begin to end
      invariant input.Value() == value
      invariant Applied(VehicleStages(k, value), 0, begin, i, old(output.vehicles[..]), output.vehicles[..])
    {
      var distance := k.distance(input.vehicles[i].position, input.player);
      output.vehicles[i] := output.vehicles[i].(lod := LodForDistance(distance));
    }
  }

  method UpdateVehiclePhysics(k: Kernels, input: WorldState, output: WorldState, begin: nat, end: nat)
    requires Apart(input, output) && begin <= end <= output.vehicles.Length
    modifies output.vehicles
    ensures Applied(VehicleStages(k, input.Value()), 1, begin, end, old(output.vehicles[..]), output.vehicles[..])
  {
    ghost var value := input.Value();
    for i := begin to end
      invariant input.Value() == value
      invariant Applied(VehicleStages(k, value), 1, begin, i, old(output.vehicles[..]), output.vehicles[..])
    {
      ghost var before := output.vehicles[i];
      ghost var all := output.vehicles[..];
      var v := input.vehicles[i];
      var steps := SubstepsFor(output.vehicles[i].lod);
      var motion := StartOf(v);
      for step := 0 to steps
        invariant input.Value() == value && motion == SubSteps(k, v, steps, step, StartOf(v))
        invariant output.vehicles[..] ==
          all[i := before.(wheelLoad := LoadAfter(k, v, steps, step, StartOf(v), before.wheelLoad))]
      {
        output.vehicles[i] := output.vehicles[i].(wheelLoad := k.wheelLoadAt(v, steps, motion));
        motion := k.subStep(v, steps, motion);
      }
      var position := k.wrapped(motion.position);
      output.vehicles[i] := output.vehicles[i].(
        position := position, velocity := motion.velocity, heading := motion.heading, engineRpm := motion.engineRpm,
        throttle := v.throttle, mass := v.mass, lane := v.lane, steer := k.steering(position, v.lane));
      assert output.vehicles[..] == all[i := VehiclePhysics(k, value, i, before)];
    }
  }

  method UpdateVehicleChain(k: Kernels, input: WorldState, output: WorldState, begin: nat, end: nat)
    requires Apart(input, output) && begin <= end <= output.vehicles.Length
    modifies output.vehicles
    ensures Chained(VehicleStages(k, input.Value()), VEHICLE_STAGES, begin, end, old(output.vehicles[..]), output.vehicles[..])
  {
    ghost var f, start := VehicleStages(k, input.Value()), output.vehicles[..];
    UpdateVehicleLod(k, input, output, begin, end);
    ChainsOn(f, 0, begin, end, start, start, output.vehicles[..]);
    ghost var lod := output.vehicles[..];
    UpdateVehiclePhysics(k, input, output, begin, end);
    ChainsOn(f, 1, begin, end, start, lod, output.vehicles[..]);
  }

  // -------------------------------------------------------------------- NPCs

  method UpdateNpcLod(k: Kernels, input: WorldState, output: WorldState, begin: nat, end: nat)
    requires Apart(input, output) && begin <= end <= output.npcs.Length
    modifies output.npcs
    ensures Applied(NpcStages(k, input.Value()), 0, begin, end, old(output.npcs[..]), output.npcs[..])
  {
    ghost var value := input.Value();
    for i := begin to end
      invariant input.Value() == value
      invariant Applied(NpcStages(k, value), 0, begin, i, old(output.npcs[..]), output.npcs[..])
    {
      var distance := k.distance(input.npcs[i].position, input.player);
      output.npcs[i] := output.npcs[i].(lod := LodForDistance(distance));
    }
  }

  method UpdateNpcPerception(k: Kernels, input: WorldState, output: WorldState, begin: nat, end: nat)
    requires Apart(input, output) && begin <= end <= output.npcs.Length
    modifies output.npcs
    ensures Applied(NpcStages(k, input.Value()), 1, begin, end, old(output.npcs[..]), output.npcs[..])
  {
    var count := input.npcs.Length;
    if count == 0 {
      return;
    }
    ghost var value := input.Value();
    for i := begin to end
      invariant input.Value() == value
      invariant Applied(NpcStages(k, value), 1, begin, i, old(output.npcs[..]), output.npcs[..])
    {
      var self := input.npcs[i].position;
      var nearestSquared, nearestIndex := FAR_AWAY, i;
      for n := 0 to PERCEPTION_WINDOW
        invariant (nearestSquared, nearestIndex) == Nearest(k, value.npcs, i, n)
      {
        var j := (i + n + 1) % count;
        var squared := k.distanceSquared(input.npcs[j].position, self);
        if squared < nearestSquared {
          nearestSquared, nearestIndex := squared, j;
        }
      }
      output.npcs[i] := output.npcs[i].(nearestDistance := k.squareRoot(nearestSquared), nearestIndex := nearestIndex);
    }
  }

  method UpdateNpcDecision(k: Kernels, input: WorldState, output: WorldState, begin: nat, end: nat)
    requires Apart(input, output) && begin <= end <= output.npcs.Length
    modifies output.npcs
    ensures Applied(NpcStages(k, input.Value()), 2, begin, end, old(output.npcs[..]), output.npcs[..])
  {
    ghost var value := input.Value();
    for i := begin to end
      invariant input.Value() == value
      invariant Applied(NpcStages(k, value), 2, begin, i, old(output.npcs[..]), output.npcs[..])
    {
      var npc := input.npcs[i];
      var crowding := None;
      if output.npcs[i].nearestDistance < 3.0 {
        var other := output.npcs[i].nearestIndex;
        if other < input.npcs.Length {
          crowding := Some(input.npcs[other].position);
        }
      }
      output.npcs[i] := output.npcs[i].(velocity := k.velocityTowards(npc, crowding), speed := npc.speed);
    }
  }

  method UpdateNpcMovement(k: Kernels, input: WorldState, output: WorldState, begin: nat, end: nat)
    requires Apart(input, output) && begin <= end <= output.npcs.Length
    modifies output.npcs
    ensures Applied(NpcStages(k, input.Value()), 3, begin, end, old(output.npcs[..]), output.npcs[..])
  {
    ghost var value := input.Value();
    for i := begin to end
      invariant input.Value() == value
      invariant Applied(NpcStages(k, value), 3, begin, i, old(output.npcs[..]), output.npcs[..])
    {
      var npc := input.npcs[i];
      var position := k.moved(npc.position, output.npcs[i].velocity);
      output.npcs[i] := output.npcs[i].(
        position := position, target := k.retargeted(npc.target, position), behaviour := npc.behaviour);
    }
  }

  method UpdateNpcChain(k: Kernels, input: WorldState, output: WorldState, begin: nat, end: nat)
    requires Apart(input, output) && begin <= end <= output.npcs.Length
    modifies output.npcs
    ensures Chained(NpcStages(k, input.Value()), NPC_STAGES, begin, end, old(output.npcs[..]), output.npcs[..])
  {
    ghost var f, start := NpcStages(k, input.Value()), output.npcs[..];
    UpdateNpcLod(k, input, output, begin, end);
    ChainsOn(f, 0, begin, end, start, start, output.npcs[..]);
    ghost var lod := output.npcs[..];
    UpdateNpcPerception(k, input, output, begin, end);
    ChainsOn(f, 1, begin, end, start, lod, output.npcs[..]);
    ghost var perceived := output.npcs[..];
    UpdateNpcDecision(k, input, output, begin, end);
    ChainsOn(f, 2, begin, end, start, perceived, output.npcs[..]);
    ghost var decided := output.npcs[..];
    UpdateNpcMovement(k, input, output, begin, end);
    ChainsOn(f, 3, begin, end, start, decided, output.npcs[..]);
  }

  // ---------------------------------------------------------------- aircraft

  method UpdateAircraftAtmosphere(k: Kernels, input: WorldState, output: WorldState, begin: nat, end: nat)
    requires Apart(input, output) && begin <= end <= output.aircraft.Length
    modifies output.aircraft
    ensures Applied(AircraftStages(k, input.Value()), 0, begin, end, old(output.aircraft[..]), output.aircraft[..])
  {
    ghost var value := input.Value();
    for i := begin to end
      invariant input.Value() == value
      invariant Applied(AircraftStages(k, value), 0, begin, i, old(output.aircraft[..]), output.aircraft[..])
    {
      var altitude := input.aircraft[i].position.y;
      output.aircraft[i] := output.aircraft[i].(airDensity := k.densityAt(altitude), altitude := altitude);
    }
  }

  method UpdateAircraftAerodynamics(k: Kernels, input: WorldState, output: WorldState, begin: nat, end: nat)
    requires Apart(input, output) && begin <= end <= output.aircraft.Length
    modifies output.aircraft
    ensures Applied(AircraftStages(k, input.Value()), 1, begin, end, old(output.aircraft[..]), output.aircraft[..])
  {
    ghost var value := input.Value();
    for i := begin to end
      invariant input.Value() == value
      invariant Applied(AircraftStages(k, value), 1, begin, i, old(output.aircraft[..]), output.aircraft[..])
    {
      var density := output.aircraft[i].airDensity;
      output.aircraft[i] := output.aircraft[i].(
        lift := k.liftAt(input.aircraft[i], density), drag := k.dragAt(input.aircraft[i], density));
    }
  }

  method UpdateAircraftPropulsion(k: Kernels, input: WorldState, output: WorldState, begin: nat, end: nat)
    requires Apart(input, output) && begin <= end <= output.aircraft.Length
    modifies output.aircraft
    ensures Applied(AircraftStages(k, input.Value()), 2, begin, end, old(output.aircraft[..]), output.aircraft[..])
  {
    ghost var value := input.Value();
    for i := begin to end
      invariant input.Value() == value
      invariant Applied(AircraftStages(k, value), 2, begin, i, old(output.aircraft[..]), output.aircraft[..])
    {
      var density := output.aircraft[i].airDensity;
      output.aircraft[i] := output.aircraft[i].(
        thrust := k.thrustAt(input.aircraft[i], density), throttle := input.aircraft[i].throttle);
    }
  }

  method UpdateAircraftIntegrate(k: Kernels, input: WorldState, output: WorldState, begin: nat, end: nat)
    requires Apart(input, output) && begin <= end <= output.aircraft.Length
    modifies output.aircraft
    ensures Applied(AircraftStages(k, input.Value()), 3, begin, end, old(output.aircraft[..]), output.aircraft[..])
  {
    ghost var value := input.Value();
    for i := begin to end
      invariant input.Value() == value
      invariant Applied(AircraftStages(k, value), 3, begin, i, old(output.aircraft[..]), output.aircraft[..])
    {
      var out := output.aircraft[i];
      var flight := k.integrated(input.aircraft[i], out.lift, out.drag, out.thrust);
      output.aircraft[i] := out.(position := flight.position, velocity := flight.velocity,
                                 heading := flight.heading, pitch := flight.pitch, mass := input.aircraft[i].mass);
    }
  }

  method UpdateAircraftChain(k: Kernels, input: WorldState, output: WorldState, begin: nat, end: nat)
    requires Apart(input, output) && begin <= end <= output.aircraft.Length
    modifies output.aircraft
    ensures Chained(AircraftStages(k, input.Value()), AIRCRAFT_STAGES, begin, end,
                    old(output.aircraft[..]), output.aircraft[..])
  {
    ghost var f, start := AircraftStages(k, input.Value()), output.aircraft[..];
    UpdateAircraftAtmosphere(k, input, output, begin, end);
    ChainsOn(f, 0, begin, end, start, start, output.aircraft[..]);
    ghost var atmosphere := output.aircraft[..];
    UpdateAircraftAerodynamics(k, input, output, begin, end);
    ChainsOn(f, 1, begin, end, start, atmosphere, output.aircraft[..]);
    ghost var aerodynamics := output.aircraft[..];
    UpdateAircraftPropulsion(k, input, output, begin, end);
    ChainsOn(f, 2, begin, end, start, aerodynamics, output.aircraft[..]);
    ghost var propulsion := output.aircraft[..];
    UpdateAircraftIntegrate(k, input, output, begin, end);
    ChainsOn(f, 3, begin, end, start, propulsion, output.aircraft[..]);
  }
}
