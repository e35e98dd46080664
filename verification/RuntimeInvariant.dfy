/**
 What holds in every reachable state of the runtime model. Each predicate reads only the
 parts of the state it speaks about, so a step that leaves those parts alone leaves it alone.
 */
module RuntimeInvariant {
  import opened Basics
  import opened RuntimeModel

  // ---------------------------------------------------------------- counting

  function OpenEdges(edges: seq<Edge>): (n: nat)
    ensures n <= |edges|
  {
    if edges == [] then 0
    else OpenEdges(edges[..|edges| - 1]) + if edges[|edges| - 1] == Released then 0 else 1
  }

  predicate Unsettled(t: Task) { Stage(t.phase) !in {10, 13, 15} }

  function CountUnsettled(tasks: seq<Task>): (n: nat) {
    if tasks == [] then 0
    else CountUnsettled(tasks[..|tasks| - 1]) + if Unsettled(tasks[|tasks| - 1]) then 1 else 0
  }

  // -------------------------------------------------------- what a record says

  /** How far a task has come: 1 to 8 in its slot, 9 and 10 after it, 11 to 13 inline, 14 and 15 given up. */
  function Stage(p: Phase): (n: nat) {
    match p
    case Counting(_) => 0
    case Building(_) => 1
    case Blocked => 2
    case Publishing(_) => 3
    case Ready => 4
    case InHand(_) => 5
    case InBody(_) => 6
    case Finished(_) => 7
    case Completing(_) => 8
    case Releasing(_) => 9
    case Retired => 10
    case InlineBusy(_) => 11
    case InlineFinished(_) => 12
    case InlineRetired => 13
    case Dropping(_) => 14
    case Dropped => 15
  }

  /** The task occupies a pool slot under a handle that still resolves. */
  predicate Resident(p: Phase) { 1 <= Stage(p) <= 8 }

  /** Every dependency has been accounted for. */
  predicate Unlocked(p: Phase) { 3 <= Stage(p) <= 10 }

  predicate WasEnqueued(p: Phase) { 4 <= Stage(p) <= 10 }

  predicate HasStarted(p: Phase) { 6 <= Stage(p) <= 10 || 12 <= Stage(p) <= 13 }

  predicate HasReturned(p: Phase) { 7 <= Stage(p) <= 10 || 12 <= Stage(p) <= 13 }

  /** Some agent is at work on the task and its phase says which. */
  predicate Staffed(p: Phase) { Stage(p) !in {2, 4, 10, 13, 15} }

  predicate AllReleased(edges: seq<Edge>) { forall i | 0 <= i < |edges| :: edges[i] == Released }

  predicate Shape(t: Task) {
    var n := Stage(t.phase);
    && (t.kind.After? <==> t.deps != [])
    && (n in {14, 15} ==> t.kind.InPlace?)
    && (t.done <==> HasReturned(t.phase))
    && t.enqueued == (if WasEnqueued(t.phase) then 1 else 0)
    && (n != 11 ==> t.started == if HasStarted(t.phase) then 1 else 0)
    && t.started <= 1
    && (1 <= n <= 10 ==> t.handle.Handle?)
    && (n == 0 || 11 <= n <= 13 ==> t.handle.Invalid?)
    && (n == 0 || n in {11, 12, 14, 15} ==> !t.known)
    && (2 <= n <= 10 || n == 13 ==> t.known)
    && (!t.known || n == 10 || n == 13 ==> t.dependents == [])
    && (t.guarded ==> n == 1 && t.known && |t.edges| == |t.deps|)
    && (!t.guarded && !(2 <= n <= 10) ==> t.edges == [])
    && (n == 2 ==> |t.edges| == |t.deps| && Unscanned !in t.edges && OpenEdges(t.edges) > 0)
    && (3 <= n <= 10 ==> |t.edges| == |t.deps| && AllReleased(t.edges))
  }

  ghost predicate ShapesOk(tasks: seq<Task>) {
    forall id {:trigger Shape(tasks[id])} | 0 <= id < |tasks| :: Shape(tasks[id])
  }

  // ------------------------------------------------------ what records say of each other

  /** The bodies of the first `j` dependencies have returned. */
  predicate DoneUpTo(tasks: seq<Task>, id: TaskId, j: nat) {
    && id < |tasks| && j <= |tasks[id].deps|
    && forall k | 0 <= k < j :: tasks[id].deps[k] < |tasks| && tasks[tasks[id].deps[k]].done
  }

  predicate DepsOk(tasks: seq<Task>, id: TaskId)
    requires id < |tasks|
  {
    && (forall i | 0 <= i < |tasks[id].deps| :: tasks[id].deps[i] < id && tasks[tasks[id].deps[i]].known)
    && (tasks[id].started > 0 ==> DoneUpTo(tasks, id, |tasks[id].deps|))
  }

  predicate EdgeOk(tasks: seq<Task>, id: TaskId, i: nat) {
    && HasEdge(tasks, id, i)
    && (tasks[id].edges[i] == Attached ==> Entry(id, i) in tasks[Dep(tasks, id, i)].dependents)
    && (tasks[id].edges[i] == Released ==> tasks[Dep(tasks, id, i)].done)
  }

  /** `e`, registered with task `d`, stands for an attached dependency on `d`. */
  predicate EntryOk(tasks: seq<Task>, d: TaskId, e: Entry) {
    && HasEdge(tasks, e.task, e.position)
    && tasks[e.task].edges[e.position] == Attached
    && Dep(tasks, e.task, e.position) == d
  }

  ghost predicate LinksOk(tasks: seq<Task>) {
    && (forall id | 0 <= id < |tasks| :: DepsOk(tasks, id))
    && (forall id, i | 0 <= id < |tasks| && 0 <= i < |tasks[id].edges| :: EdgeOk(tasks, id, i))
    && (forall d | 0 <= d < |tasks| :: Distinct(tasks[d].dependents))
    && (forall d, e | 0 <= d < |tasks| && e in tasks[d].dependents :: EntryOk(tasks, d, e))
  }

  // --------------------------------------------------------------- tasks and slots

  /** `slot` is the home of task `id`, whose record is `t`. */
  predicate Houses(slot: Slot, t: Task, id: TaskId) {
    && slot.use == HeldFor(id)
    && slot.pending == OpenEdges(t.edges) + (if t.guarded then 1 else 0)
    && (slot.closed <==> t.phase.Completing?)
    && (!slot.closed ==> slot.successors == t.dependents)
    && (slot.state == Completed ==> t.phase.Completing?)
    && (t.phase.Ready? || t.phase.InHand? ==> slot.state == Queued)
    && (t.phase.InBody? || t.phase.Finished? ==> slot.state == Executing)
  }

  predicate ResidentOk(t: Task, id: TaskId, slots: seq<Slot>) {
    && t.handle.Handle? && t.handle.index < |slots|
    && slots[t.handle.index].generation == t.handle.generation
    && Houses(slots[t.handle.index], t, id)
  }

  predicate GoneOk(t: Task, slots: seq<Slot>) {
    t.handle.Handle? ==> t.handle.index < |slots| && t.handle.generation < slots[t.handle.index].generation
  }

  predicate HomeOk(t: Task, id: TaskId, slots: seq<Slot>) {
    if Resident(t.phase) then ResidentOk(t, id, slots) else GoneOk(t, slots)
  }

  predicate SlotOk(tasks: seq<Task>, slot: Slot, x: nat) {
    && (slot.use.Listed? ==> slot.state == Free)
    && (slot.use.HeldFor? ==>
          var id := slot.use.task;
          id < |tasks| && Resident(tasks[id].phase) && tasks[id].handle.Handle? && tasks[id].handle.index == x)
  }

  ghost predicate HomesOk(tasks: seq<Task>, slots: seq<Slot>) {
    && (forall id {:trigger HomeOk(tasks[id], id, slots)} | 0 <= id < |tasks| :: HomeOk(tasks[id], id, slots))
    && (forall x {:trigger SlotOk(tasks, slots[x], x)} | 0 <= x < |slots| :: SlotOk(tasks, slots[x], x))
  }

  // ------------------------------------------------------------------ agents

  predicate InUse(s: Sys, a: Agent, x: nat) { x < |s.slots| && s.slots[x].use == InTransit(a) }

  predicate InUseFree(s: Sys, a: Agent, x: nat) { InUse(s, a, x) && s.slots[x].state == Free }

  predicate InPhase(s: Sys, id: TaskId, phase: Phase) { id < |s.tasks| && s.tasks[id].phase == phase }

  /** A submission that has its slot and is still putting the task together. */
  predicate Builds(s: Sys, a: Agent, id: TaskId, x: nat) {
    InPhase(s, id, Building(a)) && Addressed(s, id) && SlotOf(s, id) == x
  }

  predicate Unguarded(s: Sys, a: Agent, id: TaskId, x: nat, known: bool) {
    Builds(s, a, id, x) && !s.tasks[id].guarded && s.tasks[id].known == known
  }

  predicate ScannedTo(edges: seq<Edge>, i: nat) {
    i <= |edges| && forall j | 0 <= j < |edges| :: edges[j] == Unscanned <==> i <= j
  }

  predicate Scans(s: Sys, a: Agent, id: TaskId, x: nat, i: nat) {
    Builds(s, a, id, x) && s.tasks[id].guarded && ScannedTo(s.tasks[id].edges, i)
  }

  predicate Kinded(s: Sys, id: TaskId, kind: Kind) {
    id < |s.tasks| && s.tasks[id].kind == kind
  }

  predicate StateIs(s: Sys, id: TaskId, state: TaskState) {
    Addressed(s, id) && s.slots[SlotOf(s, id)].state == state
  }

  predicate Keeps(s: Sys, id: TaskId, phase: Phase, list: seq<Entry>) {
    InPhase(s, id, phase) && s.tasks[id].dependents == list
  }

  predicate WaitsInline(s: Sys, a: Agent, id: TaskId, j: nat, started: nat) {
    InPhase(s, id, InlineBusy(a)) && s.tasks[id].started == started && DoneUpTo(s.tasks, id, j)
  }

  predicate AskerOk(s: Sys, a: Agent, about: TaskId, asker: Asker) {
    && about < |s.tasks| && s.tasks[about].known
    && match asker
       case Caller(sure) => sure ==> LooksComplete(s, about)
       case InlineWait(id, j) =>
         WaitsInline(s, a, id, j, 0) && j < |s.tasks[id].deps| && s.tasks[id].deps[j] == about
  }

  ghost predicate PcOk(s: Sys, a: Agent, pc: Pc) {
    match pc
    case Counted(id, kind) => InPhase(s, id, Counting(a)) && Kinded(s, id, kind)
    case Taken(id, kind, x) => InPhase(s, id, Counting(a)) && InUseFree(s, a, x) && Kinded(s, id, kind)
    case Opened(id, kind, x) => Unguarded(s, a, id, x, false) && Kinded(s, id, kind)
    case Made(id, kind, x) => Unguarded(s, a, id, x, true) && Kinded(s, id, kind)
    case MadeWaiting(id, x) => Unguarded(s, a, id, x, true)
    case Scanning(id, x, i) => Scans(s, a, id, x, i)
    case Resolved(id, x, i) => Scans(s, a, id, x, i) && HasEdge(s.tasks, id, i) && Addressed(s, Dep(s.tasks, id, i))
    case Unregistered(id, x, i) =>
      Scans(s, a, id, x, i) && HasEdge(s.tasks, id, i) && s.tasks[Dep(s.tasks, id, i)].done
    case Zeroed(id, x) => InPhase(s, id, Publishing(a)) && Addressed(s, id) && SlotOf(s, id) == x
    case Enqueuing(id) => InPhase(s, id, Publishing(a)) && StateIs(s, id, Queued)
    case Undoing(id, x) => Unguarded(s, a, id, x, false) && Kinded(s, id, InPlace)
    case UndoBumped(id, x) => InPhase(s, id, Dropping(a)) && InUse(s, a, x)
    case UndoClosed(id, x) => InPhase(s, id, Dropping(a)) && InUse(s, a, x)
    case UndoFreed(id, x) => InPhase(s, id, Dropping(a)) && InUseFree(s, a, x)
    case Settling(id) => InPhase(s, id, Dropping(a)) || InPhase(s, id, InlineFinished(a))
    case Exhausted(id, kind) => WaitsInline(s, a, id, 0, 0) && Kinded(s, id, kind)
    case InlineWaiting(id, j) => WaitsInline(s, a, id, j, 0)
    case InlineRunning(id) => WaitsInline(s, a, id, 0, 1)
    case Claimed(id) => InPhase(s, id, InHand(a))
    case Running(id) => InPhase(s, id, InBody(a))
    case Returned(id) => InPhase(s, id, Finished(a))
    case Drained(id, list) => Keeps(s, id, Completing(a), list) && StateIs(s, id, Executing)
    case Marked(id, list) => Keeps(s, id, Completing(a), list) && StateIs(s, id, Completed)
    case Bumped(id, x, list) => Keeps(s, id, Releasing(a), list) && InUse(s, a, x)
    case Closed(id, x, list) => Keeps(s, id, Releasing(a), list) && InUse(s, a, x)
    case Freed(id, x, list) => Keeps(s, id, Releasing(a), list) && InUseFree(s, a, x)
    case Notifying(id, list) => Keeps(s, id, Releasing(a), list)
    case Decrementing(id, list) => Keeps(s, id, Releasing(a), list) && list != []
    case DependentZeroed(id, list) =>
      && list != [] && Keeps(s, id, Releasing(a), list[1..]) && InPhase(s, list[0].task, Publishing(a))
    case DependentEnqueuing(id, list) =>
      && list != [] && Keeps(s, id, Releasing(a), list[1..]) && InPhase(s, list[0].task, Publishing(a))
      && StateIs(s, list[0].task, Queued)
    case AskGet(id, asker) => AskerOk(s, a, id, asker)
    case AskState(id, asker) => AskerOk(s, a, id, asker) && Addressed(s, id)
    case AskGeneration(id, asker, seen) =>
      && AskerOk(s, a, id, asker) && Addressed(s, id)
      && (Resolves(s, id) && seen == Completed ==> s.tasks[id].done)
      && (asker.Caller? && asker.sure && Resolves(s, id) ==> seen == Completed)
    case Answered(id, sure, answer) =>
      id < |s.tasks| && (answer ==> s.tasks[id].done) && (sure ==> answer)
  }

  ghost predicate AgentsOk(s: Sys) {
    forall a {:trigger PcOk(s, a, s.agents[a])} | a in s.agents :: PcOk(s, a, s.agents[a])
  }

  /** What an agent is answerable for, as far as the task's own phase is concerned. */
  datatype Duty =
    | NoDuty
    | ToCount(task: TaskId)
    | ToBuild(task: TaskId)
    | ToPublish(task: TaskId)
    | ToStart(task: TaskId)
    | ToRun(task: TaskId)
    | ToFinish(task: TaskId)
    | ToComplete(task: TaskId)
    | ToRelease(task: TaskId)
    | ToRunInline(task: TaskId)
    | ToDrop(task: TaskId)
    | ToSettle(task: TaskId)

  function DutyOf(pc: Pc): Duty {
    match pc
    case Counted(id, _) => ToCount(id)
    case Taken(id, _, _) => ToCount(id)
    case Opened(id, _, _) => ToBuild(id)
    case Made(id, _, _) => ToBuild(id)
    case MadeWaiting(id, _) => ToBuild(id)
    case Scanning(id, _, _) => ToBuild(id)
    case Resolved(id, _, _) => ToBuild(id)
    case Unregistered(id, _, _) => ToBuild(id)
    case Undoing(id, _) => ToBuild(id)
    case Zeroed(id, _) => ToPublish(id)
    case Enqueuing(id) => ToPublish(id)
    case UndoBumped(id, _) => ToDrop(id)
    case UndoClosed(id, _) => ToDrop(id)
    case UndoFreed(id, _) => ToDrop(id)
    case Settling(id) => ToSettle(id)
    case Exhausted(id, _) => ToRunInline(id)
    case InlineWaiting(id, _) => ToRunInline(id)
    case InlineRunning(id) => ToRunInline(id)
    case Claimed(id) => ToStart(id)
    case Running(id) => ToRun(id)
    case Returned(id) => ToFinish(id)
    case Drained(id, _) => ToComplete(id)
    case Marked(id, _) => ToComplete(id)
    case Bumped(id, _, _) => ToRelease(id)
    case Closed(id, _, _) => ToRelease(id)
    case Freed(id, _, _) => ToRelease(id)
    case Notifying(id, _) => ToRelease(id)
    case Decrementing(id, _) => ToRelease(id)
    case DependentZeroed(id, _) => ToRelease(id)
    case DependentEnqueuing(id, _) => ToRelease(id)
    case AskGet(_, asker) => if asker.InlineWait? then ToRunInline(asker.task) else NoDuty
    case AskState(_, asker) => if asker.InlineWait? then ToRunInline(asker.task) else NoDuty
    case AskGeneration(_, asker, _) => if asker.InlineWait? then ToRunInline(asker.task) else NoDuty
    case Answered(_, _, _) => NoDuty
  }

  /** The dependent that a completing agent is publishing on the side. */
  function SideDuty(pc: Pc): Duty {
    if (pc.DependentZeroed? || pc.DependentEnqueuing?) && pc.list != [] then ToPublish(pc.list[0].task) else NoDuty
  }

  predicate Fits(duty: Duty, side: Duty, id: TaskId, phase: Phase) {
    match phase
    case Counting(_) => duty == ToCount(id)
    case Building(_) => duty == ToBuild(id)
    case Publishing(_) => duty == ToPublish(id) || side == ToPublish(id)
    case InHand(_) => duty == ToStart(id)
    case InBody(_) => duty == ToRun(id)
    case Finished(_) => duty == ToFinish(id)
    case Completing(_) => duty == ToComplete(id)
    case Releasing(_) => duty == ToRelease(id)
    case InlineBusy(_) => duty == ToRunInline(id)
    case InlineFinished(_) => duty == ToSettle(id)
    case Dropping(_) => duty == ToDrop(id) || duty == ToSettle(id)
    case Blocked => true
    case Ready => true
    case Retired => true
    case InlineRetired => true
    case Dropped => true
  }

  /** The agent a phase names is at work on that very task. */
  predicate WorksOn(pc: Pc, id: TaskId, phase: Phase) {
    Fits(DutyOf(pc), SideDuty(pc), id, phase)
  }

  ghost predicate OwnersOk(tasks: seq<Task>, agents: map<Agent, Pc>) {
    forall id | 0 <= id < |tasks| && Staffed(tasks[id].phase) ::
      tasks[id].phase.agent in agents && WorksOn(agents[tasks[id].phase.agent], id, tasks[id].phase)
  }

  // ------------------------------------------------------------------- all of it

  /** The bag holds exactly the tasks that are ready, each once. */
  ghost predicate ReadyOk(tasks: seq<Task>, ready: multiset<TaskId>) {
    forall id: nat :: ready[id] == if id < |tasks| && tasks[id].phase.Ready? then 1 else 0
  }

  ghost predicate Core(s: Sys) {
    && ShapesOk(s.tasks) && HomesOk(s.tasks, s.slots)
    && AgentsOk(s) && OwnersOk(s.tasks, s.agents)
    && ReadyOk(s.tasks, s.ready) && s.outstanding == CountUnsettled(s.tasks)
  }

  ghost predicate Inv(s: Sys) { Core(s) && LinksOk(s.tasks) }
}
