/** The result of a frame does not depend on the schedule. */
module FrameTheorems {
  import opened FrameModel
  import StageMachine

  /** The three chains of a tick, in progress side by side. */
  datatype Tick = Tick(
    vehicles: StageMachine.Sys<Vehicle>, npcs: StageMachine.Sys<Npc>, aircraft: StageMachine.Sys<Aircraft>)

  function VehicleWork(k: Kernels, input: State): StageMachine.Work<Vehicle> {
    StageMachine.Work(VehicleStages(k, input), VEHICLE_STAGES, |input.vehicles|)
  }

  function NpcWork(k: Kernels, input: State): StageMachine.Work<Npc> {
    StageMachine.Work(NpcStages(k, input), NPC_STAGES, |input.npcs|)
  }

  function AircraftWork(k: Kernels, input: State): StageMachine.Work<Aircraft> {
    StageMachine.Work(AircraftStages(k, input), AIRCRAFT_STAGES, |input.aircraft|)
  }

  /** One task of one chain takes one step; all of them read `input`, which nobody writes. */
  ghost predicate Next(k: Kernels, input: State, s: Tick, r: Tick) {
    || (StageMachine.Next(VehicleWork(k, input), s.vehicles, r.vehicles) && r == s.(vehicles := r.vehicles))
    || (StageMachine.Next(NpcWork(k, input), s.npcs, r.npcs) && r == s.(npcs := r.npcs))
    || (StageMachine.Next(AircraftWork(k, input), s.aircraft, r.aircraft) && r == s.(aircraft := r.aircraft))
  }

  /** The chains are submitted, writing into the buffer of two frames ago. */
  ghost predicate Init(k: Kernels, input: State, workers: nat, stale: State, s: Tick) {
    && StageMachine.Init(VehicleWork(k, input), workers, stale.vehicles, s.vehicles)
    && StageMachine.Init(NpcWork(k, input), workers, stale.npcs, s.npcs)
    && StageMachine.Init(AircraftWork(k, input), workers, stale.aircraft, s.aircraft)
  }

  ghost predicate Follows(k: Kernels, input: State, run: seq<Tick>, i: nat)
    requires 0 < i < |run|
  {
    Next(k, input, run[i - 1], run[i])
  }

  ghost predicate Run(k: Kernels, input: State, workers: nat, stale: State, run: seq<Tick>) {
    && run != [] && Init(k, input, workers, stale, run[0])
    && forall i | 0 < i < |run| :: Follows(k, input, run, i)
  }

  /** The three `wait`s of the tick have returned. */
  predicate Complete(s: Tick) {
    StageMachine.AllFinished(s.vehicles) && StageMachine.AllFinished(s.npcs) && StageMachine.AllFinished(s.aircraft)
  }

  ghost predicate Inv(k: Kernels, input: State, workers: nat, stale: State, s: Tick) {
    && StageMachine.Inv(VehicleWork(k, input), stale.vehicles, s.vehicles)
    && StageMachine.Inv(NpcWork(k, input), stale.npcs, s.npcs)
    && StageMachine.Inv(AircraftWork(k, input), stale.aircraft, s.aircraft)
    && StageMachine.CursorOk(s.vehicles) && StageMachine.CursorOk(s.npcs) && StageMachine.CursorOk(s.aircraft)
    && |s.vehicles.claimants| == StageMachine.Claimants(|input.vehicles|, workers)
    && |s.npcs.claimants| == StageMachine.Claimants(|input.npcs|, workers)
    && |s.aircraft.claimants| == StageMachine.Claimants(|input.aircraft|, workers)
  }

  lemma StageKeeps<E>(w: StageMachine.Work<E>, before: seq<E>, s: StageMachine.Sys<E>, r: StageMachine.Sys<E>)
    requires StageMachine.Inv(w, before, s) && StageMachine.CursorOk(s) && StageMachine.Next(w, s, r)
    ensures StageMachine.Inv(w, before, r) && StageMachine.CursorOk(r) && |r.claimants| == |s.claimants|
    ensures StageMachine.AccessesLeft(w, r) < StageMachine.AccessesLeft(w, s)
  {
    var c: nat :| StageMachine.Step(w, s, r, c);
    StageMachine.StepKeepsInv(w, before, s, r, c);
    StageMachine.CursorStaysBounded(w, s, r, c);
    StageMachine.StageComesNearer(w, before, s, r, c);
  }

  /** How many accesses the tasks of a tick have left, at most. */
  function AccessesLeft(k: Kernels, input: State, s: Tick): nat {
    StageMachine.AccessesLeft(VehicleWork(k, input), s.vehicles) + StageMachine.AccessesLeft(NpcWork(k, input), s.npcs)
    + StageMachine.AccessesLeft(AircraftWork(k, input), s.aircraft)
  }

  lemma StepKeepsInv(k: Kernels, input: State, workers: nat, stale: State, s: Tick, r: Tick)
    requires Inv(k, input, workers, stale, s) && Next(k, input, s, r)
    ensures Inv(k, input, workers, stale, r) && AccessesLeft(k, input, r) < AccessesLeft(k, input, s)
  {
    hide StageMachine.Inv, StageMachine.CursorOk, StageMachine.Next, StageMachine.AccessesLeft;
    if StageMachine.Next(VehicleWork(k, input), s.vehicles, r.vehicles) && r == s.(vehicles := r.vehicles) {
      StageKeeps(VehicleWork(k, input), stale.vehicles, s.vehicles, r.vehicles);
    } else if StageMachine.Next(NpcWork(k, input), s.npcs, r.npcs) && r == s.(npcs := r.npcs) {
      StageKeeps(NpcWork(k, input), stale.npcs, s.npcs, r.npcs);
    } else {
      StageKeeps(AircraftWork(k, input), stale.aircraft, s.aircraft, r.aircraft);
    }
  }

  lemma {:induction false} RunKeepsInv(k: Kernels, input: State, workers: nat, stale: State, run: seq<Tick>, n: nat)
    requires Run(k, input, workers, stale, run) && n < |run|
    ensures Inv(k, input, workers, stale, run[n])
  {
    if n == 0 {
      StageMachine.InitInv(VehicleWork(k, input), workers, stale.vehicles, run[0].vehicles);
      StageMachine.InitInv(NpcWork(k, input), workers, stale.npcs, run[0].npcs);
      StageMachine.InitInv(AircraftWork(k, input), workers, stale.aircraft, run[0].aircraft);
    } else {
      hide Inv, Next, Init;
      RunKeepsInv(k, input, workers, stale, run, n - 1);
      assert Follows(k, input, run, n);
      StepKeepsInv(k, input, workers, stale, run[n - 1], run[n]);
    }
  }

  /** What the tick has written, as the state of the next frame. */
  function Written(s: Tick, input: State): State {
    State(s.vehicles.out, s.npcs.out, s.aircraft.out, input.player)
  }

  /** In no state of a tick are two tasks of a chain at work on the same entity. */
  lemma NoEntityShared(k: Kernels, input: State, workers: nat, stale: State, run: seq<Tick>, n: nat)
    requires Run(k, input, workers, stale, run) && n < |run|
    ensures StageMachine.NoneShared(VehicleWork(k, input), run[n].vehicles)
    ensures StageMachine.NoneShared(NpcWork(k, input), run[n].npcs)
    ensures StageMachine.NoneShared(AircraftWork(k, input), run[n].aircraft)
  {
    hide StageMachine.Inv, StageMachine.CursorOk;
    RunKeepsInv(k, input, workers, stale, run, n);
    StageMachine.NoEntityShared(VehicleWork(k, input), stale.vehicles, run[n].vehicles);
    StageMachine.NoEntityShared(NpcWork(k, input), stale.npcs, run[n].npcs);
    StageMachine.NoEntityShared(AircraftWork(k, input), stale.aircraft, run[n].aircraft);
  }

  /** What a stage can take from its submission on, whatever the schedule. */
  function StageBound<E>(w: StageMachine.Work<E>, workers: nat): nat {
    StageMachine.Budget(w, StageMachine.BatchCountFor(w.count) + StageMachine.Claimants(w.count, workers))
  }

  lemma StageBegins<E>(w: StageMachine.Work<E>, workers: nat, before: seq<E>, s: StageMachine.Sys<E>)
    requires StageMachine.Init(w, workers, before, s)
    ensures StageMachine.AccessesLeft(w, s) == StageBound(w, workers)
  {
    StageMachine.SumLeftNone(w, s.claimants);
  }

  lemma {:induction false} StepsAreSpent(k: Kernels, input: State, workers: nat, stale: State, run: seq<Tick>, n: nat)
    requires Run(k, input, workers, stale, run) && n < |run|
    ensures n + AccessesLeft(k, input, run[n]) <= AccessesLeft(k, input, run[0])
  {
    if n > 0 {
      hide Inv, Next, Init, AccessesLeft;
      StepsAreSpent(k, input, workers, stale, run, n - 1);
      RunKeepsInv(k, input, workers, stale, run, n - 1);
      assert Follows(k, input, run, n);
      StepKeepsInv(k, input, workers, stale, run[n - 1], run[n]);
    }
  }

  /** The claim loops of a tick end: no schedule can draw them out beyond a number known when they are submitted. */
  lemma TickEnds(k: Kernels, input: State, workers: nat, stale: State, run: seq<Tick>)
    requires Run(k, input, workers, stale, run)
    ensures |run| <= 1 + StageBound(VehicleWork(k, input), workers) + StageBound(NpcWork(k, input), workers)
                       + StageBound(AircraftWork(k, input), workers)
  {
    hide StageMachine.Init;
    StepsAreSpent(k, input, workers, stale, run, |run| - 1);
    StageBegins(VehicleWork(k, input), workers, stale.vehicles, run[0].vehicles);
    StageBegins(NpcWork(k, input), workers, stale.npcs, run[0].npcs);
    StageBegins(AircraftWork(k, input), workers, stale.aircraft, run[0].aircraft);
  }

  lemma StageGoesOn<E>(w: StageMachine.Work<E>, before: seq<E>, s: StageMachine.Sys<E>) returns (r: StageMachine.Sys<E>)
    requires StageMachine.Inv(w, before, s) && !StageMachine.AllFinished(s)
    ensures StageMachine.Next(w, s, r)
  {
    var c :| 0 <= c < |s.claimants| && !s.claimants[c].Finished?;
    r := StageMachine.StageGoesOn(w, before, s, c);
  }

  /** And it ends with all its tasks returned: until then some task can go on. */
  lemma TickGoesOn(k: Kernels, input: State, workers: nat, stale: State, run: seq<Tick>, n: nat) returns (r: Tick)
    requires Run(k, input, workers, stale, run) && n < |run| && !Complete(run[n])
    ensures Next(k, input, run[n], r)
  {
    hide StageMachine.Inv, StageMachine.CursorOk, StageMachine.Next, StageMachine.AllFinished;
    RunKeepsInv(k, input, workers, stale, run, n);
    r := run[n];
    if !StageMachine.AllFinished(r.vehicles) {
      var vehicles := StageGoesOn(VehicleWork(k, input), stale.vehicles, r.vehicles);
      r := r.(vehicles := vehicles);
    } else if !StageMachine.AllFinished(r.npcs) {
      var npcs := StageGoesOn(NpcWork(k, input), stale.npcs, r.npcs);
      r := r.(npcs := npcs);
    } else {
      var aircraft := StageGoesOn(AircraftWork(k, input), stale.aircraft, r.aircraft);
      r := r.(aircraft := aircraft);
    }
  }

  /** Once all tasks of a chain have returned, and whatever the other chains are doing, it has written its part of the frame. */
  lemma FinishedStageIsFrame(k: Kernels, input: State, workers: nat, stale: State, run: seq<Tick>, n: nat)
    requires Run(k, input, workers, stale, run) && n < |run|
    ensures StageMachine.AllFinished(run[n].vehicles) ==> run[n].vehicles.out == Frame(k, input).vehicles
    ensures StageMachine.AllFinished(run[n].npcs) ==> run[n].npcs.out == Frame(k, input).npcs
    ensures StageMachine.AllFinished(run[n].aircraft) ==> run[n].aircraft.out == Frame(k, input).aircraft
  {
    var s := run[n];
    RunKeepsInv(k, input, workers, stale, run, n);
    forall i | 0 <= i < |input.vehicles| && StageMachine.AllFinished(s.vehicles)
      ensures s.vehicles.out[i] == NextVehicle(k, input, i)
    {
      StageMachine.ChainOnEveryEntity(VehicleWork(k, input), stale.vehicles, s.vehicles, i);
      VehicleChainIsFrame(k, input, i, stale.vehicles[i]);
    }
    forall i | 0 <= i < |input.npcs| && StageMachine.AllFinished(s.npcs) ensures s.npcs.out[i] == NextNpc(k, input, i) {
      StageMachine.ChainOnEveryEntity(NpcWork(k, input), stale.npcs, s.npcs, i);
      NpcChainIsFrame(k, input, i, stale.npcs[i]);
    }
    forall i | 0 <= i < |input.aircraft| && StageMachine.AllFinished(s.aircraft)
      ensures s.aircraft.out[i] == NextAircraft(k, input, i)
    {
      StageMachine.ChainOnEveryEntity(AircraftWork(k, input), stale.aircraft, s.aircraft, i);
      AircraftChainIsFrame(k, input, i, stale.aircraft[i]);
    }
  }

  /**
   For every worker count, every interleaving of claims and writes across the three chains, and
   whatever the buffer held before: when the waits return, it holds the frame function's value.
   */
  lemma ScheduleDoesNotMatter(k: Kernels, input: State, workers: nat, stale: State, run: seq<Tick>)
    requires Run(k, input, workers, stale, run) && Complete(run[|run| - 1])
    ensures Written(run[|run| - 1], input) == Frame(k, input)
  {
    FinishedStageIsFrame(k, input, workers, stale, run, |run| - 1);
  }

  // ---------------------------------------------------------------- many ticks

  /** The double buffer. */
  datatype Buffers = Buffers(current: State, next: State)

  /** One tick on any number of workers, under any schedule, into the buffer of two frames ago; then the swap. */
  ghost predicate ParallelTick(k: Kernels, s: Buffers, r: Buffers) {
    exists workers: nat, run: seq<Tick> ::
      && Run(k, s.current, workers, s.next, run) && Complete(run[|run| - 1])
      && r == Buffers(Written(run[|run| - 1], s.current), s.current)
  }

  ghost predicate TickFollows(k: Kernels, history: seq<Buffers>, i: nat)
    requires 0 < i < |history|
  {
    ParallelTick(k, history[i - 1], history[i])
  }

  /** However many ticks, each with its own workers and its own schedule, they are as many applications of the frame function. */
  lemma {:induction false} ParallelTicksAreFrames(k: Kernels, history: seq<Buffers>, n: nat)
    requires n < |history| && forall i | 0 < i < |history| :: TickFollows(k, history, i)
    ensures history[n].current == Frames(k, history[0].current, n)
    ensures n > 0 ==> history[n].next == Frames(k, history[0].current, n - 1)
  {
    if n > 0 {
      hide Run, Complete, Frame;
      ParallelTicksAreFrames(k, history, n - 1);
      assert TickFollows(k, history, n);
      var s := history[n - 1];
      var workers: nat, run: seq<Tick> :|
        && Run(k, s.current, workers, s.next, run) && Complete(run[|run| - 1])
        && history[n] == Buffers(Written(run[|run| - 1], s.current), s.current);
      ScheduleDoesNotMatter(k, s.current, workers, s.next, run);
    }
  }

  // ---------------------------------------------------- stages with barriers in between

  /** The unfused form: each stage over the whole range before the next begins. */
  function Barriered<E>(f: (nat, nat, E) -> E, n: nat, out: seq<E>): (r: seq<E>)
    ensures |r| == |out|
  {
    if n == 0 then out
    else
      var earlier := Barriered(f, n - 1, out);
      seq(|out|, i requires 0 <= i < |out| => f(n - 1, i, earlier[i]))
  }

  lemma {:induction false} BarrieredIsChain<E>(f: (nat, nat, E) -> E, n: nat, out: seq<E>, i: nat)
    requires i < |out|
    ensures Barriered(f, n, out)[i] == Chain(f, n, i, out[i])
  {
    if n > 0 { BarrieredIsChain(f, n - 1, out, i); }
  }

  /** Fusing a chain's stages changes nothing: stages with barriers between them give the same frame. */
  lemma FusingChangesNothing(k: Kernels, input: State, stale: State)
    requires |stale.vehicles| == |input.vehicles| && |stale.npcs| == |input.npcs|
    requires |stale.aircraft| == |input.aircraft|
    ensures Barriered(VehicleStages(k, input), VEHICLE_STAGES, stale.vehicles) == Frame(k, input).vehicles
    ensures Barriered(NpcStages(k, input), NPC_STAGES, stale.npcs) == Frame(k, input).npcs
    ensures Barriered(AircraftStages(k, input), AIRCRAFT_STAGES, stale.aircraft) == Frame(k, input).aircraft
  {
    forall i | 0 <= i < |input.vehicles|
      ensures Barriered(VehicleStages(k, input), VEHICLE_STAGES, stale.vehicles)[i] == NextVehicle(k, input, i)
    {
      BarrieredIsChain(VehicleStages(k, input), VEHICLE_STAGES, stale.vehicles, i);
      VehicleChainIsFrame(k, input, i, stale.vehicles[i]);
    }
    forall i | 0 <= i < |input.npcs|
      ensures Barriered(NpcStages(k, input), NPC_STAGES, stale.npcs)[i] == NextNpc(k, input, i)
    {
      BarrieredIsChain(NpcStages(k, input), NPC_STAGES, stale.npcs, i);
      NpcChainIsFrame(k, input, i, stale.npcs[i]);
    }
    forall i | 0 <= i < |input.aircraft|
      ensures Barriered(AircraftStages(k, input), AIRCRAFT_STAGES, stale.aircraft)[i] == NextAircraft(k, input, i)
    {
      BarrieredIsChain(AircraftStages(k, input), AIRCRAFT_STAGES, stale.aircraft, i);
      AircraftChainIsFrame(k, input, i, stale.aircraft[i]);
    }
  }
}
