/** What one agent's step leaves alone, for every other agent, task and slot. */
module RuntimeFrames {
  import opened RuntimeModel
  import opened RuntimeInvariant

  // ---------------------------------------------------------------- counting

  lemma {:induction false} OpenOne(edges: seq<Edge>, i: nat, e: Edge)
    requires i < |edges|
    ensures OpenEdges(edges[i := e]) ==
      OpenEdges(edges) - (if edges[i] == Released then 0 else 1) + if e == Released then 0 else 1
  {
    var n := |edges| - 1;
    assert edges[i := e][..n] == if i < n then edges[..n][i := e] else edges[..n];
    if i < n { OpenOne(edges[..n], i, e); }
  }

  lemma {:induction false} OpenZero(edges: seq<Edge>)
    ensures OpenEdges(edges) == 0 <==> AllReleased(edges)
  {
    if edges != [] {
      var n := |edges| - 1;
      OpenZero(edges[..n]);
      if AllReleased(edges) {
        assert forall i | 0 <= i < n :: edges[..n][i] == edges[i];
      } else if edges[n] == Released {
        var i :| 0 <= i < |edges| && edges[i] != Released;
        assert edges[..n][i] != Released;
      }
    }
  }

  lemma {:induction false} OpenAllUnscanned(n: nat)
    ensures OpenEdges(seq(n, i => Unscanned)) == n
  {
    if n > 0 {
      assert seq(n, i => Unscanned)[..n - 1] == seq(n - 1, i => Unscanned);
      OpenAllUnscanned(n - 1);
    }
  }

  lemma {:induction false} UnsettledOne(tasks: seq<Task>, i: nat, t: Task)
    requires i < |tasks|
    ensures CountUnsettled(tasks[i := t]) ==
      CountUnsettled(tasks) - (if Unsettled(tasks[i]) then 1 else 0) + if Unsettled(t) then 1 else 0
  {
    var n := |tasks| - 1;
    assert tasks[i := t][..n] == if i < n then tasks[..n][i := t] else tasks[..n];
    if i < n { UnsettledOne(tasks[..n], i, t); }
  }

  // ------------------------------------------------------------ other agents

  predicate Others(p: Phase, a: Agent) { Staffed(p) && p.agent != a }

  /** `u` is what `t` may have become by a step of `a`. */
  predicate TaskSpared(t: Task, u: Task, a: Agent) {
    && u.kind == t.kind && u.deps == t.deps && (t.known ==> u.known) && (t.done ==> u.done)
    && (t.handle.Handle? || t.known ==> u.handle == t.handle)
    && (Others(t.phase, a) ==>
          && u.phase == t.phase && u.started == t.started && u.guarded == t.guarded && u.known == t.known
          && |u.edges| == |t.edges|
          && (forall j | 0 <= j < |t.edges| :: u.edges[j] == Unscanned <==> t.edges[j] == Unscanned)
          && (t.phase.Completing? || t.phase.Releasing? ==> u.dependents == t.dependents))
  }

  predicate SlotSpared(tasks: seq<Task>, x: Slot, y: Slot, a: Agent) {
    && x.generation <= y.generation
    && (x.use.InTransit? && x.use.agent != a ==> y == x)
    && (x.use.HeldFor? && x.use.task < |tasks| && Others(tasks[x.use.task].phase, a) ==> y.state == x.state)
    && (x.use.HeldFor? && x.state == Completed && y.generation == x.generation ==> y.state == Completed)
  }

  ghost predicate Spares(s: Sys, r: Sys, a: Agent) {
    && |s.slots| == |r.slots| && |s.tasks| <= |r.tasks|
    && (forall id | 0 <= id < |s.tasks| :: TaskSpared(s.tasks[id], r.tasks[id], a))
    && (forall x | 0 <= x < |s.slots| :: SlotSpared(s.tasks, s.slots[x], r.slots[x], a))
  }

  lemma DoneStays(s: Sys, r: Sys, a: Agent, id: TaskId, j: nat)
    requires Spares(s, r, a) && DoneUpTo(s.tasks, id, j)
    ensures DoneUpTo(r.tasks, id, j)
  {
    assert TaskSpared(s.tasks[id], r.tasks[id], a);
    forall k | 0 <= k < j ensures r.tasks[id].deps[k] < |r.tasks| && r.tasks[r.tasks[id].deps[k]].done {
      assert TaskSpared(s.tasks[s.tasks[id].deps[k]], r.tasks[s.tasks[id].deps[k]], a);
    }
  }

  lemma CompleteStays(s: Sys, r: Sys, a: Agent, id: TaskId)
    requires HomesOk(s.tasks, s.slots) && Spares(s, r, a) && id < |s.tasks|
    requires s.tasks[id].known || s.tasks[id].handle.Handle?
    ensures Resolves(r, id) ==> Resolves(s, id)
    ensures Addressed(s, id) ==> Addressed(r, id) && SlotOf(r, id) == SlotOf(s, id)
    ensures LooksComplete(s, id) ==> LooksComplete(r, id)
  {
    assert TaskSpared(s.tasks[id], r.tasks[id], a);
    assert HomeOk(s.tasks[id], id, s.slots);
    if Addressed(s, id) {
      var x := SlotOf(s, id);
      assert SlotSpared(s.tasks, s.slots[x], r.slots[x], a);
    }
  }

  lemma AskerSpared(s: Sys, r: Sys, a: Agent, b: Agent, about: TaskId, asker: Asker)
    requires HomesOk(s.tasks, s.slots) && Spares(s, r, a) && a != b && AskerOk(s, b, about, asker)
    ensures AskerOk(r, b, about, asker)
  {
    assert TaskSpared(s.tasks[about], r.tasks[about], a);
    CompleteStays(s, r, a, about);
    if asker.InlineWait? {
      assert TaskSpared(s.tasks[asker.task], r.tasks[asker.task], a);
      DoneStays(s, r, a, asker.task, asker.position);
    }
  }

  lemma StateSpared(s: Sys, r: Sys, a: Agent, id: TaskId, state: TaskState)
    requires HomesOk(s.tasks, s.slots) && Spares(s, r, a)
    requires StateIs(s, id, state) && Resident(s.tasks[id].phase) && Others(s.tasks[id].phase, a)
    ensures StateIs(r, id, state)
  {
    assert TaskSpared(s.tasks[id], r.tasks[id], a) && HomeOk(s.tasks[id], id, s.slots);
    assert SlotSpared(s.tasks, s.slots[SlotOf(s, id)], r.slots[SlotOf(s, id)], a);
  }

  predicate IsAssembling(pc: Pc) {
    || pc.Counted? || pc.Taken? || pc.Opened? || pc.Made? || pc.MadeWaiting? || pc.Scanning? || pc.Resolved?
    || pc.Unregistered? || pc.Undoing?
  }

  predicate IsQuery(pc: Pc) {
    || pc.AskGet? || pc.AskState? || pc.AskGeneration? || pc.Answered?
    || pc.Exhausted? || pc.InlineWaiting? || pc.InlineRunning?
  }

  lemma AssemblerSpared(s: Sys, r: Sys, a: Agent, b: Agent, pc: Pc)
    requires Spares(s, r, a) && a != b && IsAssembling(pc) && PcOk(s, b, pc)
    ensures PcOk(r, b, pc)
  {
    assert TaskSpared(s.tasks[pc.task], r.tasks[pc.task], a);
    if pc.Resolved? || pc.Unregistered? {
      var d := Dep(s.tasks, pc.task, pc.next);
      assert TaskSpared(s.tasks[d], r.tasks[d], a);
    }
    if pc.Taken? { assert SlotSpared(s.tasks, s.slots[pc.slot], r.slots[pc.slot], a); }
  }

  lemma QuerySpared(s: Sys, r: Sys, a: Agent, b: Agent, pc: Pc)
    requires HomesOk(s.tasks, s.slots) && Spares(s, r, a) && a != b && IsQuery(pc) && PcOk(s, b, pc)
    ensures PcOk(r, b, pc)
  {
    match pc
    case Exhausted(id, _) => assert TaskSpared(s.tasks[id], r.tasks[id], a); DoneStays(s, r, a, id, 0);
    case InlineWaiting(id, j) => assert TaskSpared(s.tasks[id], r.tasks[id], a); DoneStays(s, r, a, id, j);
    case InlineRunning(id) => assert TaskSpared(s.tasks[id], r.tasks[id], a); DoneStays(s, r, a, id, 0);
    case AskGet(id, asker) => AskerSpared(s, r, a, b, id, asker);
    case AskState(id, asker) => AskerSpared(s, r, a, b, id, asker); CompleteStays(s, r, a, id);
    case AskGeneration(id, asker, _) =>
      AskerSpared(s, r, a, b, id, asker);
      CompleteStays(s, r, a, id);
      assert TaskSpared(s.tasks[id], r.tasks[id], a);
    case Answered(id, _, _) => assert TaskSpared(s.tasks[id], r.tasks[id], a);
  }

  predicate HasSlot(pc: Pc) {
    pc.UndoBumped? || pc.UndoClosed? || pc.UndoFreed? || pc.Bumped? || pc.Closed? || pc.Freed?
  }

  lemma ReturnerSpared(s: Sys, r: Sys, a: Agent, b: Agent, pc: Pc)
    requires Spares(s, r, a) && a != b && HasSlot(pc) && PcOk(s, b, pc)
    ensures PcOk(r, b, pc)
  {
    assert TaskSpared(s.tasks[pc.task], r.tasks[pc.task], a);
    assert SlotSpared(s.tasks, s.slots[pc.slot], r.slots[pc.slot], a);
  }

  /** An agent that relies on the state of the slot of a task it owns. */
  lemma StorerSpared(s: Sys, r: Sys, a: Agent, b: Agent, pc: Pc)
    requires HomesOk(s.tasks, s.slots) && Spares(s, r, a) && a != b && PcOk(s, b, pc)
    requires pc.Enqueuing? || pc.Drained? || pc.Marked?
    ensures PcOk(r, b, pc)
  {
    assert TaskSpared(s.tasks[pc.task], r.tasks[pc.task], a);
    StateSpared(s, r, a, pc.task, if pc.Enqueuing? then Queued else if pc.Drained? then Executing else Completed);
  }

  lemma PublisherSpared(s: Sys, r: Sys, a: Agent, b: Agent, pc: Pc)
    requires HomesOk(s.tasks, s.slots) && Spares(s, r, a) && a != b && PcOk(s, b, pc)
    requires pc.DependentZeroed? || pc.DependentEnqueuing?
    ensures PcOk(r, b, pc)
  {
    hide HomesOk;
    var d := pc.list[0].task;
    assert TaskSpared(s.tasks[pc.task], r.tasks[pc.task], a) && TaskSpared(s.tasks[d], r.tasks[d], a);
    if pc.DependentEnqueuing? { StateSpared(s, r, a, d, Queued); }
  }

  /** A step of `a` leaves everything that another agent relies on. */
  lemma OtherAgentSpared(s: Sys, r: Sys, a: Agent, b: Agent, pc: Pc)
    requires HomesOk(s.tasks, s.slots) && Spares(s, r, a) && a != b && PcOk(s, b, pc)
    ensures PcOk(r, b, pc)
  {
    hide HomesOk;
    if IsAssembling(pc) {
      AssemblerSpared(s, r, a, b, pc);
    } else if IsQuery(pc) {
      QuerySpared(s, r, a, b, pc);
    } else if HasSlot(pc) {
      ReturnerSpared(s, r, a, b, pc);
    } else if pc.Enqueuing? || pc.Drained? || pc.Marked? {
      StorerSpared(s, r, a, b, pc);
    } else if pc.DependentZeroed? || pc.DependentEnqueuing? {
      PublisherSpared(s, r, a, b, pc);
    } else {
      assert TaskSpared(s.tasks[pc.task], r.tasks[pc.task], a);
    }
  }

  lemma OtherAgentsSpared(s: Sys, r: Sys, a: Agent)
    requires HomesOk(s.tasks, s.slots) && AgentsOk(s) && Spares(s, r, a)
    requires forall b | b in r.agents && b != a :: b in s.agents && r.agents[b] == s.agents[b]
    requires a in r.agents ==> PcOk(r, a, r.agents[a])
    ensures AgentsOk(r)
  {
    forall b | b in r.agents ensures PcOk(r, b, r.agents[b]) {
      if b != a { OtherAgentSpared(s, r, a, b, s.agents[b]); }
    }
  }

  // ----------------------------------------------------- other tasks and slots

  /** A step that touches one task and one slot, neither of them another's; no slot if `x` is out of range. */
  lemma HomesSpared(tasks: seq<Task>, slots: seq<Slot>, rtasks: seq<Task>, rslots: seq<Slot>, id: TaskId, x: nat)
    requires HomesOk(tasks, slots) && |rtasks| == |tasks| && |rslots| == |slots| && id < |tasks|
    requires forall j | 0 <= j < |tasks| && j != id :: rtasks[j] == tasks[j]
    requires forall y | 0 <= y < |slots| && y != x :: rslots[y] == slots[y]
    requires Resident(tasks[id].phase) && tasks[id].handle.Handle? ==> tasks[id].handle.index == x
    requires x < |slots| ==>
      && slots[x].generation <= rslots[x].generation
      && (slots[x].use.HeldFor? ==> slots[x].use.task == id)
      && SlotOk(rtasks, rslots[x], x)
    requires HomeOk(rtasks[id], id, rslots)
    ensures HomesOk(rtasks, rslots)
  {
    forall j | 0 <= j < |rtasks| ensures HomeOk(rtasks[j], j, rslots) {
      assert HomeOk(tasks[j], j, slots);
    }
    forall y | 0 <= y < |rslots| ensures SlotOk(rtasks, rslots[y], y) {
      assert SlotOk(tasks, slots[y], y);
      assert HomeOk(tasks[id], id, slots);
    }
  }

  /** A step that touches one slot, held by no task before or after. */
  lemma FreeSlotSpared(tasks: seq<Task>, slots: seq<Slot>, x: nat, slot: Slot)
    requires HomesOk(tasks, slots) && x < |slots| && !slots[x].use.HeldFor? && !slot.use.HeldFor?
    requires slots[x].generation == slot.generation && (slot.use.Listed? ==> slot.state == Free)
    ensures HomesOk(tasks, slots[x := slot])
  {
    forall j | 0 <= j < |tasks| ensures HomeOk(tasks[j], j, slots[x := slot]) {
      assert HomeOk(tasks[j], j, slots);
    }
    var rslots := slots[x := slot];
    forall y | 0 <= y < |rslots| ensures SlotOk(tasks, rslots[y], y) {
      assert SlotOk(tasks, slots[y], y);
    }
  }

  lemma OwnersSpared(s: Sys, r: Sys, a: Agent)
    requires OwnersOk(s.tasks, s.agents) && |s.tasks| <= |r.tasks|
    requires forall b | b in s.agents && b != a :: b in r.agents && r.agents[b] == s.agents[b]
    requires forall id | 0 <= id < |r.tasks| && Staffed(r.tasks[id].phase) ::
      if r.tasks[id].phase.agent == a
      then a in r.agents && WorksOn(r.agents[a], id, r.tasks[id].phase)
      else id < |s.tasks| && s.tasks[id].phase == r.tasks[id].phase
    ensures OwnersOk(r.tasks, r.agents)
  {
  }
}
