/**
 One frame of the simulation as functions: what each stage writes into one entity's record of
 the next frame, and, independently, what the whole next frame is as a function of the current
 one. The numerical kernels are parameters; what is modelled is which fields of which entities
 each stage reads and writes.
 */
module FrameModel {
  import opened Basics

  datatype Vec3 = Vec3(x: real, y: real, z: real)

  datatype Lod = Full | Reduced | Simple | Distant

  datatype Vehicle = Vehicle(
    position: Vec3, velocity: Vec3, heading: real, steer: real, throttle: real,
    engineRpm: real, wheelLoad: real, mass: real, lod: Lod, lane: nat)

  datatype Npc = Npc(
    position: Vec3, velocity: Vec3, target: Vec3, speed: real, behaviour: nat, lod: Lod,
    nearestDistance: real, nearestIndex: nat)

  datatype Aircraft = Aircraft(
    position: Vec3, velocity: Vec3, heading: real, pitch: real, throttle: real, altitude: real,
    airDensity: real, lift: real, drag: real, thrust: real, mass: real)

  datatype State = State(vehicles: seq<Vehicle>, npcs: seq<Npc>, aircraft: seq<Aircraft>, player: Vec3)

  /** What a physics sub-step carries to the next. */
  datatype Motion = Motion(position: Vec3, velocity: Vec3, heading: real, engineRpm: real)

  datatype Flight = Flight(position: Vec3, velocity: Vec3, heading: real, pitch: real)

  /** The arithmetic, left open. */
  datatype Kernels = Kernels(
    distance: (Vec3, Vec3) -> real,
    distanceSquared: (Vec3, Vec3) -> real,
    squareRoot: real -> real,
    subStep: (Vehicle, nat, Motion) -> Motion,
    wheelLoadAt: (Vehicle, nat, Motion) -> real,
    wrapped: Vec3 -> Vec3,
    steering: (Vec3, nat) -> real,
    velocityTowards: (Npc, Option<Vec3>) -> Vec3,
    moved: (Vec3, Vec3) -> Vec3,
    retargeted: (Vec3, Vec3) -> Vec3,
    densityAt: real -> real,
    liftAt: (Aircraft, real) -> real,
    dragAt: (Aircraft, real) -> real,
    thrustAt: (Aircraft, real) -> real,
    integrated: (Aircraft, real, real, real) -> Flight
  )

  const PERCEPTION_WINDOW := 24
  const BATCH_SIZE := 32
  const FAR_AWAY := 1000000000000000000000000000000.0

  function LodForDistance(distance: real): Lod {
    if distance < 50.0 then Full else if distance < 250.0 then Reduced else if distance < 1000.0 then Simple else Distant
  }

  function SubstepsFor(lod: Lod): (steps: nat)
    ensures steps > 0
  {
    match lod
    case Full => 4
    case Reduced => 2
    case Simple => 1
    case Distant => 1
  }

  /** The state of the sub-step loop after `n` of `steps` rounds. */
  function SubSteps(k: Kernels, v: Vehicle, steps: nat, n: nat, start: Motion): Motion {
    if n == 0 then start else k.subStep(v, steps, SubSteps(k, v, steps, n - 1, start))
  }

  /** What the sub-step loop has written into the wheel load after `n` of `steps` rounds. */
  function LoadAfter(k: Kernels, v: Vehicle, steps: nat, n: nat, start: Motion, before: real): real {
    if n == 0 then before else k.wheelLoadAt(v, steps, SubSteps(k, v, steps, n - 1, start))
  }

  /** The bands of the level of detail, and the sub-steps taken in each. */
  lemma DetailFallsWithDistance(near: real, far: real)
    requires near <= far
    ensures SubstepsFor(LodForDistance(far)) <= SubstepsFor(LodForDistance(near))
    ensures near < 50.0 <==> SubstepsFor(LodForDistance(near)) == 4
    ensures 50.0 <= near < 250.0 <==> SubstepsFor(LodForDistance(near)) == 2
    ensures 250.0 <= near <==> SubstepsFor(LodForDistance(near)) == 1
    ensures near < 1000.0 <= far ==> LodForDistance(near) != LodForDistance(far)
  {
  }

  /** The loop makes as many sub-steps as it is told: a kernel that counts them counts `n`. */
  lemma {:induction false} SubStepsAreCounted(k: Kernels, v: Vehicle, steps: nat, n: nat, start: Motion)
    requires forall m: Motion :: k.subStep(v, steps, m) == m.(heading := m.heading + 1.0)
    ensures SubSteps(k, v, steps, n, start) == start.(heading := start.heading + n as real)
  {
    if n > 0 { SubStepsAreCounted(k, v, steps, n - 1, start); }
  }

  function StartOf(v: Vehicle): Motion { Motion(v.position, v.velocity, v.heading, v.engineRpm) }

  /** The state of the perception loop after `n` neighbours: the nearest so far, and which it is. */
  function Nearest(k: Kernels, npcs: seq<Npc>, i: nat, n: nat): (r: (real, nat))
    requires i < |npcs|
    ensures r.1 < |npcs|
  {
    if n == 0 then (FAR_AWAY, i)
    else
      var before := Nearest(k, npcs, i, n - 1);
      var j := (i + n) % |npcs|;
      var d := k.distanceSquared(npcs[j].position, npcs[i].position);
      if d < before.0 then (d, j) else before
  }

  /** The squared distance to the `m`-th neighbour of entity `i`, counted round the list from the next one on. */
  function SquaredTo(k: Kernels, npcs: seq<Npc>, i: nat, m: nat): real
    requires i < |npcs|
  { k.distanceSquared(npcs[(i + m) % |npcs|].position, npcs[i].position) }

  /** `r` is the first of the nearest among the first `n` neighbours; or no neighbour is nearer than `FAR_AWAY`. */
  ghost predicate IsNearest(k: Kernels, npcs: seq<Npc>, i: nat, n: nat, r: (real, nat))
    requires i < |npcs|
  {
    if forall m: nat | 1 <= m <= n :: SquaredTo(k, npcs, i, m) >= FAR_AWAY then r == (FAR_AWAY, i)
    else
      exists m: nat | 1 <= m <= n ::
        && r == (SquaredTo(k, npcs, i, m), (i + m) % |npcs|) && r.0 < FAR_AWAY
        && (forall o: nat | 1 <= o <= n :: r.0 <= SquaredTo(k, npcs, i, o))
        && (forall o: nat | 1 <= o < m :: r.0 < SquaredTo(k, npcs, i, o))
  }

  /** Perception finds the nearest neighbour in its window, the first of them if several are as near. */
  lemma {:induction false} NearestIsNearest(k: Kernels, npcs: seq<Npc>, i: nat, n: nat)
    requires i < |npcs|
    ensures IsNearest(k, npcs, i, n, Nearest(k, npcs, i, n))
  {
    if n > 0 {
      NearestIsNearest(k, npcs, i, n - 1);
      var before := Nearest(k, npcs, i, n - 1);
      var d := SquaredTo(k, npcs, i, n);
      if forall m: nat | 1 <= m <= n - 1 :: SquaredTo(k, npcs, i, m) >= FAR_AWAY {
        if d < before.0 { assert Nearest(k, npcs, i, n) == (SquaredTo(k, npcs, i, n), (i + n) % |npcs|); }
      } else {
        var m: nat :| 1 <= m <= n - 1
          && before == (SquaredTo(k, npcs, i, m), (i + m) % |npcs|) && before.0 < FAR_AWAY
          && (forall o: nat | 1 <= o <= n - 1 :: before.0 <= SquaredTo(k, npcs, i, o))
          && (forall o: nat | 1 <= o < m :: before.0 < SquaredTo(k, npcs, i, o));
        assert before.0 == SquaredTo(k, npcs, i, m);
        var found := if d < before.0 then n else m;
        assert Nearest(k, npcs, i, n) == (SquaredTo(k, npcs, i, found), (i + found) % |npcs|);
      }
    }
  }

  lemma OnceRound(x: nat, n: nat)
    requires 0 < n && x < 2 * n
    ensures x % n == if x < n then x else x - n
  {
  }

  /**
   The scan comes round to the entity itself with the neighbour whose number is the size of the
   crowd: in a crowd no larger than the window an entity is its own neighbour.
   */
  lemma NeighboursComeRound(npcs: seq<Npc>, i: nat, m: nat)
    requires i < |npcs| && 1 <= m <= |npcs|
    ensures (i + m) % |npcs| == i <==> m == |npcs|
  {
    OnceRound(i + m, |npcs|);
  }

  // ------------------------------------------------------------------ stages

  function VehicleLod(k: Kernels, input: State, i: nat, out: Vehicle): Vehicle
    requires i < |input.vehicles|
  { out.(lod := LodForDistance(k.distance(input.vehicles[i].position, input.player))) }

  /** Reads the level of detail the stage before it wrote. The wheel load is written inside the sub-step loop. */
  function VehiclePhysics(k: Kernels, input: State, i: nat, out: Vehicle): Vehicle
    requires i < |input.vehicles|
  {
    var v := input.vehicles[i];
    var steps := SubstepsFor(out.lod);
    var end := SubSteps(k, v, steps, steps, StartOf(v));
    var position := k.wrapped(end.position);
    out.(wheelLoad := LoadAfter(k, v, steps, steps, StartOf(v), out.wheelLoad),
         position := position, velocity := end.velocity, heading := end.heading,
         engineRpm := end.engineRpm, throttle := v.throttle, mass := v.mass, lane := v.lane,
         steer := k.steering(position, v.lane))
  }

  function NpcLod(k: Kernels, input: State, i: nat, out: Npc): Npc
    requires i < |input.npcs|
  { out.(lod := LodForDistance(k.distance(input.npcs[i].position, input.player))) }

  /** Reads other entities, in the previous frame only. */
  function NpcPerception(k: Kernels, input: State, i: nat, out: Npc): Npc
    requires i < |input.npcs|
  {
    var nearest := Nearest(k, input.npcs, i, PERCEPTION_WINDOW);
    out.(nearestDistance := k.squareRoot(nearest.0), nearestIndex := nearest.1)
  }

  function PositionOf(npcs: seq<Npc>, j: nat): Option<Vec3> {
    if j < |npcs| then Some(npcs[j].position) else None
  }

  /** Reads what perception wrote for this very entity. */
  function NpcDecision(k: Kernels, input: State, i: nat, out: Npc): Npc
    requires i < |input.npcs|
  {
    var crowding := if out.nearestDistance < 3.0 then PositionOf(input.npcs, out.nearestIndex) else None;
    out.(velocity := k.velocityTowards(input.npcs[i], crowding), speed := input.npcs[i].speed)
  }

  function NpcMovement(k: Kernels, input: State, i: nat, out: Npc): Npc
    requires i < |input.npcs|
  {
    var position := k.moved(input.npcs[i].position, out.velocity);
    out.(position := position, target := k.retargeted(input.npcs[i].target, position),
         behaviour := input.npcs[i].behaviour)
  }

  function AircraftAtmosphere(k: Kernels, input: State, i: nat, out: Aircraft): Aircraft
    requires i < |input.aircraft|
  {
    var altitude := input.aircraft[i].position.y;
    out.(airDensity := k.densityAt(altitude), altitude := altitude)
  }

  function AircraftAerodynamics(k: Kernels, input: State, i: nat, out: Aircraft): Aircraft
    requires i < |input.aircraft|
  {
    out.(lift := k.liftAt(input.aircraft[i], out.airDensity), drag := k.dragAt(input.aircraft[i], out.airDensity))
  }

  function AircraftPropulsion(k: Kernels, input: State, i: nat, out: Aircraft): Aircraft
    requires i < |input.aircraft|
  {
    out.(thrust := k.thrustAt(input.aircraft[i], out.airDensity), throttle := input.aircraft[i].throttle)
  }

  function AircraftIntegrate(k: Kernels, input: State, i: nat, out: Aircraft): Aircraft
    requires i < |input.aircraft|
  {
    var flight := k.integrated(input.aircraft[i], out.lift, out.drag, out.thrust);
    out.(position := flight.position, velocity := flight.velocity, heading := flight.heading,
         pitch := flight.pitch, mass := input.aircraft[i].mass)
  }

  // The fused chains, stage by stage.

  const VEHICLE_STAGES := 2
  const NPC_STAGES := 4
  const AIRCRAFT_STAGES := 4

  function VehicleStage(k: Kernels, input: State, stage: nat, i: nat, out: Vehicle): Vehicle {
    if i >= |input.vehicles| then out
    else if stage == 0 then VehicleLod(k, input, i, out)
    else if stage == 1 then VehiclePhysics(k, input, i, out)
    else out
  }

  function NpcStage(k: Kernels, input: State, stage: nat, i: nat, out: Npc): Npc {
    if i >= |input.npcs| then out
    else if stage == 0 then NpcLod(k, input, i, out)
    else if stage == 1 then NpcPerception(k, input, i, out)
    else if stage == 2 then NpcDecision(k, input, i, out)
    else if stage == 3 then NpcMovement(k, input, i, out)
    else out
  }

  function AircraftStage(k: Kernels, input: State, stage: nat, i: nat, out: Aircraft): Aircraft {
    if i >= |input.aircraft| then out
    else if stage == 0 then AircraftAtmosphere(k, input, i, out)
    else if stage == 1 then AircraftAerodynamics(k, input, i, out)
    else if stage == 2 then AircraftPropulsion(k, input, i, out)
    else if stage == 3 then AircraftIntegrate(k, input, i, out)
    else out
  }

  /** The first `n` stages, one after the other, on entity `i`. */
  function Chain<E>(f: (nat, nat, E) -> E, n: nat, i: nat, out: E): E {
    if n == 0 then out else f(n - 1, i, Chain(f, n - 1, i, out))
  }

  // --------------------------------------------------------- the frame function

  /** The next frame's vehicle, from the current frame alone. */
  function NextVehicle(k: Kernels, input: State, i: nat): Vehicle
    requires i < |input.vehicles|
  {
    var v := input.vehicles[i];
    var lod := LodForDistance(k.distance(v.position, input.player));
    var steps := SubstepsFor(lod);
    var last := SubSteps(k, v, steps, steps - 1, StartOf(v));
    var end := k.subStep(v, steps, last);
    var position := k.wrapped(end.position);
    Vehicle(position, end.velocity, end.heading, k.steering(position, v.lane), v.throttle, end.engineRpm,
            k.wheelLoadAt(v, steps, last), v.mass, lod, v.lane)
  }

  function NextNpc(k: Kernels, input: State, i: nat): Npc
    requires i < |input.npcs|
  {
    var npc := input.npcs[i];
    var nearest := Nearest(k, input.npcs, i, PERCEPTION_WINDOW);
    var distance := k.squareRoot(nearest.0);
    var crowding := if distance < 3.0 then Some(input.npcs[nearest.1].position) else None;
    var velocity := k.velocityTowards(npc, crowding);
    var position := k.moved(npc.position, velocity);
    Npc(position, velocity, k.retargeted(npc.target, position), npc.speed, npc.behaviour,
        LodForDistance(k.distance(npc.position, input.player)), distance, nearest.1)
  }

  function NextAircraft(k: Kernels, input: State, i: nat): Aircraft
    requires i < |input.aircraft|
  {
    var a := input.aircraft[i];
    var density := k.densityAt(a.position.y);
    var lift, drag, thrust := k.liftAt(a, density), k.dragAt(a, density), k.thrustAt(a, density);
    var flight := k.integrated(a, lift, drag, thrust);
    Aircraft(flight.position, flight.velocity, flight.heading, flight.pitch, a.throttle, a.position.y, density,
             lift, drag, thrust, a.mass)
  }

  /** One frame: a pure, per-entity function of the frame before it. */
  function Frame(k: Kernels, input: State): State {
    State(seq(|input.vehicles|, i requires 0 <= i < |input.vehicles| => NextVehicle(k, input, i)),
          seq(|input.npcs|, i requires 0 <= i < |input.npcs| => NextNpc(k, input, i)),
          seq(|input.aircraft|, i requires 0 <= i < |input.aircraft| => NextAircraft(k, input, i)),
          input.player)
  }

  function Frames(k: Kernels, input: State, n: nat): State {
    if n == 0 then input else Frame(k, Frames(k, input, n - 1))
  }

  // ----------------------------------------------------- every field is overwritten

  function VehicleStages(k: Kernels, input: State): (nat, nat, Vehicle) -> Vehicle {
    (stage: nat, i: nat, out: Vehicle) => VehicleStage(k, input, stage, i, out)
  }

  function NpcStages(k: Kernels, input: State): (nat, nat, Npc) -> Npc {
    (stage: nat, i: nat, out: Npc) => NpcStage(k, input, stage, i, out)
  }

  function AircraftStages(k: Kernels, input: State): (nat, nat, Aircraft) -> Aircraft {
    (stage: nat, i: nat, out: Aircraft) => AircraftStage(k, input, stage, i, out)
  }

  /**
   The chains leave nothing of the buffer they write into: whatever `out` held, two frames
   old, it ends as the frame function says.
   */
  lemma VehicleChainIsFrame(k: Kernels, input: State, i: nat, out: Vehicle)
    requires i < |input.vehicles|
    ensures Chain(VehicleStages(k, input), VEHICLE_STAGES, i, out) == NextVehicle(k, input, i)
  {
    var f := VehicleStages(k, input);
    assert Chain(f, 1, i, out) == f(0, i, Chain(f, 0, i, out)) == VehicleLod(k, input, i, out);
    assert Chain(f, 2, i, out) == f(1, i, Chain(f, 1, i, out)) == VehiclePhysics(k, input, i, Chain(f, 1, i, out));
  }

  lemma NpcChainIsFrame(k: Kernels, input: State, i: nat, out: Npc)
    requires i < |input.npcs|
    ensures Chain(NpcStages(k, input), NPC_STAGES, i, out) == NextNpc(k, input, i)
  {
    var f := NpcStages(k, input);
    assert Chain(f, 1, i, out) == f(0, i, Chain(f, 0, i, out)) == NpcLod(k, input, i, out);
    assert Chain(f, 2, i, out) == f(1, i, Chain(f, 1, i, out)) == NpcPerception(k, input, i, Chain(f, 1, i, out));
    assert Chain(f, 3, i, out) == f(2, i, Chain(f, 2, i, out)) == NpcDecision(k, input, i, Chain(f, 2, i, out));
    assert Chain(f, 4, i, out) == f(3, i, Chain(f, 3, i, out)) == NpcMovement(k, input, i, Chain(f, 3, i, out));
  }

  lemma AircraftChainIsFrame(k: Kernels, input: State, i: nat, out: Aircraft)
    requires i < |input.aircraft|
    ensures Chain(AircraftStages(k, input), AIRCRAFT_STAGES, i, out) == NextAircraft(k, input, i)
  {
    var f := AircraftStages(k, input);
    assert Chain(f, 1, i, out) == f(0, i, Chain(f, 0, i, out)) == AircraftAtmosphere(k, input, i, out);
    assert Chain(f, 2, i, out) == f(1, i, Chain(f, 1, i, out)) == AircraftAerodynamics(k, input, i, Chain(f, 1, i, out));
    assert Chain(f, 3, i, out) == f(2, i, Chain(f, 2, i, out)) == AircraftPropulsion(k, input, i, Chain(f, 2, i, out));
    assert Chain(f, 4, i, out) == f(3, i, Chain(f, 3, i, out)) == AircraftIntegrate(k, input, i, Chain(f, 3, i, out));
  }
}
