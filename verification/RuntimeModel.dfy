/**
 Task lifetime, dependencies and completion queries of the task runtime, as a state machine
 with one step per atomic access or locked section, taken by any number of concurrent calls.

 An agent is one call in progress: a submission, the execution of one task by a worker, or a
 completion query. Nothing limits which agents exist at once, so every thread count, every
 nesting of submissions inside task bodies and every schedule is an interleaving here.

 `Task` is history: it records what a submission asked for and how far it got, and no step
 chooses its branch by it. A recorded task is named by its position in `tasks`, the order
 in which submissions were counted; its handle is what callers and queues hold instead.
 */
module RuntimeModel {

  type Agent = nat
  type TaskId = nat

  datatype Handle = Invalid | Handle(index: nat, generation: nat)

  datatype TaskState = Free | Created | Waiting | Queued | Executing | Completed

  /** A successor-list entry: the handle of `task`, registered for its dependency number `position`. */
  datatype Entry = Entry(task: TaskId, position: nat)

  /** Who has the slot: the free lists, an agent that is taking or returning it, or a task. */
  datatype Use = Listed | InTransit(agent: Agent) | HeldFor(task: TaskId)

  datatype Slot = Slot(
    generation: nat,
    state: TaskState,
    pending: int,
    closed: bool,
    successors: seq<Entry>,
    use: Use
  )

  /** What became of one declared dependency. */
  datatype Edge = Unscanned | Attached | Released

  datatype Phase =
    | Counting(agent: Agent)
    | Building(agent: Agent)
    | Blocked
    | Publishing(agent: Agent)
    | Ready
    | InHand(agent: Agent)
    | InBody(agent: Agent)
    | Finished(agent: Agent)
    | Completing(agent: Agent)
    | Releasing(agent: Agent)
    | Retired
    | InlineBusy(agent: Agent)
    | InlineFinished(agent: Agent)
    | InlineRetired
    | Dropping(agent: Agent)
    | Dropped

  datatype Task = Task(
    handle: Handle,
    kind: Kind,
    deps: seq<TaskId>,
    edges: seq<Edge>,
    guarded: bool,
    dependents: seq<Entry>,
    phase: Phase,
    known: bool,
    enqueued: nat,
    started: nat,
    done: bool
  )

  /** Plain is `submit`, InPlace is `submit_emplace`, After is `submit_after` with dependencies. */
  datatype Kind = Plain | InPlace | After

  /** Why a completion query is asked: by a caller, or by a submission that waits to run inline. */
  datatype Asker = Caller(sure: bool) | InlineWait(task: TaskId, position: nat)

  datatype Pc =
    // submissions
    | Counted(task: TaskId, kind: Kind)
    | Taken(task: TaskId, kind: Kind, slot: nat)
    | Opened(task: TaskId, kind: Kind, slot: nat)
    | Made(task: TaskId, kind: Kind, slot: nat)
    | MadeWaiting(task: TaskId, slot: nat)
    | Scanning(task: TaskId, slot: nat, next: nat)
    | Resolved(task: TaskId, slot: nat, next: nat)
    | Unregistered(task: TaskId, slot: nat, next: nat)
    | Zeroed(task: TaskId, slot: nat)
    | Enqueuing(task: TaskId)
    | Undoing(task: TaskId, slot: nat)
    | UndoBumped(task: TaskId, slot: nat)
    | UndoClosed(task: TaskId, slot: nat)
    | UndoFreed(task: TaskId, slot: nat)
    | Settling(task: TaskId)
    | Exhausted(task: TaskId, kind: Kind)
    | InlineWaiting(task: TaskId, next: nat)
    | InlineRunning(task: TaskId)
    // execution
    | Claimed(task: TaskId)
    | Running(task: TaskId)
    | Returned(task: TaskId)
    | Drained(task: TaskId, list: seq<Entry>)
    | Marked(task: TaskId, list: seq<Entry>)
    | Bumped(task: TaskId, slot: nat, list: seq<Entry>)
    | Closed(task: TaskId, slot: nat, list: seq<Entry>)
    | Freed(task: TaskId, slot: nat, list: seq<Entry>)
    | Notifying(task: TaskId, list: seq<Entry>)
    | Decrementing(task: TaskId, list: seq<Entry>)
    | DependentZeroed(task: TaskId, list: seq<Entry>)
    | DependentEnqueuing(task: TaskId, list: seq<Entry>)
    // completion queries
    | AskGet(about: TaskId, asker: Asker)
    | AskState(about: TaskId, asker: Asker)
    | AskGeneration(about: TaskId, asker: Asker, seen: TaskState)
    | Answered(about: TaskId, sure: bool, answer: bool)

  datatype Sys = Sys(
    slots: seq<Slot>,
    agents: map<Agent, Pc>,
    tasks: seq<Task>,
    ready: multiset<TaskId>,
    outstanding: int
  )

  // The one word, record or location an access changes.

  function SetPc(s: Sys, a: Agent, pc: Pc): Sys { s.(agents := s.agents[a := pc]) }

  function Leave(s: Sys, a: Agent): Sys { s.(agents := s.agents - {a}) }

  function SetSlot(s: Sys, x: nat, slot: Slot): Sys
    requires x < |s.slots|
  { s.(slots := s.slots[x := slot]) }

  function SetState(s: Sys, x: nat, state: TaskState): Sys
    requires x < |s.slots|
  { SetSlot(s, x, s.slots[x].(state := state)) }

  function SetTask(s: Sys, id: TaskId, task: Task): Sys
    requires id < |s.tasks|
  { s.(tasks := s.tasks[id := task]) }

  function SetPhase(s: Sys, id: TaskId, phase: Phase): Sys
    requires id < |s.tasks|
  { SetTask(s, id, s.tasks[id].(phase := phase)) }

  /** `id` has a handle, and it names one of the slots. */
  predicate Addressed(s: Sys, id: TaskId) {
    id < |s.tasks| && s.tasks[id].handle.Handle? && s.tasks[id].handle.index < |s.slots|
  }

  function SlotOf(s: Sys, id: TaskId): nat
    requires Addressed(s, id)
  { s.tasks[id].handle.index }

  /** `TaskPool::get` finds the slot: its generation is still the handle's. */
  predicate Resolves(s: Sys, id: TaskId) {
    Addressed(s, id) && s.slots[SlotOf(s, id)].generation == s.tasks[id].handle.generation
  }

  /** Dependency `i` of `id` was declared and is being tracked. */
  predicate HasEdge(tasks: seq<Task>, id: TaskId, i: nat) {
    id < |tasks| && i < |tasks[id].deps| == |tasks[id].edges| && tasks[id].deps[i] < |tasks|
  }

  function Dep(tasks: seq<Task>, id: TaskId, i: nat): TaskId
    requires HasEdge(tasks, id, i)
  { tasks[id].deps[i] }

  function Release(t: Task, i: nat): Task
    requires i < |t.edges|
  { t.(edges := t.edges[i := Released]) }

  // ------------------------------------------------------------- submissions

  /** `outstanding_.fetch_add`, the first access of every submission. */
  ghost predicate Call(s: Sys, r: Sys, a: Agent, kind: Kind, deps: seq<TaskId>) {
    && a !in s.agents
    && (kind.After? <==> deps != [])
    && (forall i | 0 <= i < |deps| :: deps[i] < |s.tasks| && s.tasks[deps[i]].known)
    && r == s.(agents := s.agents[a := Counted(|s.tasks|, kind)],
               tasks := s.tasks + [Task(Invalid, kind, deps, [], false, [], Counting(a), false, 0, 0, false)],
               outstanding := s.outstanding + 1)
  }

  /** A free slot leaves the free lists. */
  ghost predicate Take(s: Sys, r: Sys, a: Agent, x: nat) {
    && a in s.agents && s.agents[a].Counted? && x < |s.slots| && s.slots[x].use == Listed
    && var Counted(id, kind) := s.agents[a];
       r == SetPc(SetSlot(s, x, s.slots[x].(use := InTransit(a))), a, Taken(id, kind, x))
  }

  /** No slot was found; free slots hidden in other threads' caches do not help. */
  ghost predicate Exhaust(s: Sys, r: Sys, a: Agent) {
    && a in s.agents && s.agents[a].Counted? && s.agents[a].task < |s.tasks|
    && var Counted(id, kind) := s.agents[a];
       r == SetPc(SetPhase(s, id, InlineBusy(a)), a, Exhausted(id, kind))
  }

  /** `open_successors`, with the plain writes of `acquire` that precede it. */
  ghost predicate Open(s: Sys, r: Sys, a: Agent, id: TaskId, kind: Kind, x: nat) {
    && id < |s.tasks| && x < |s.slots|
    && r == SetPc(
        SetTask(
          SetSlot(s, x, s.slots[x].(pending := 0, closed := false, successors := [], use := HeldFor(id))),
          id, s.tasks[id].(handle := Handle(x, s.slots[x].generation), phase := Building(a))),
        a, Opened(id, kind, x))
  }

  /** `acquire` publishes Created; `submit_emplace` publishes Queued at once. */
  ghost predicate Publish(s: Sys, r: Sys, a: Agent, id: TaskId, kind: Kind, x: nat) {
    && id < |s.tasks| && x < |s.slots|
    && r == if kind.InPlace?
            then SetPc(SetTask(SetState(s, x, Queued), id, s.tasks[id].(phase := Publishing(a), known := true)),
                       a, Enqueuing(id))
            else SetPc(SetTask(SetState(s, x, Created), id, s.tasks[id].(known := true)),
                       a, Made(id, kind, x))
  }

  /** `submit` stores Queued, `submit_after` stores Waiting. */
  ghost predicate StoreState(s: Sys, r: Sys, a: Agent, id: TaskId, kind: Kind, x: nat) {
    && id < |s.tasks| && x < |s.slots|
    && r == if kind.After?
            then SetPc(SetState(s, x, Waiting), a, MadeWaiting(id, x))
            else SetPc(SetPhase(SetState(s, x, Queued), id, Publishing(a)), a, Enqueuing(id))
  }

  /** `pending_dependencies` becomes one per declared dependency plus the guard. */
  ghost predicate StorePending(s: Sys, r: Sys, a: Agent, id: TaskId, x: nat) {
    && id < |s.tasks| && x < |s.slots|
    && var t := s.tasks[id];
       r == SetPc(
         SetTask(SetSlot(s, x, s.slots[x].(pending := |t.deps| + 1)),
                 id, t.(guarded := true, edges := seq(|t.deps|, i => Unscanned))),
         a, Scanning(id, x, 0))
  }

  /** `pool_.get` on the next dependency, or the removal of the guard after the last. */
  ghost predicate Scan(s: Sys, r: Sys, a: Agent, id: TaskId, x: nat, i: nat) {
    && id < |s.tasks| && x < |s.slots|
    && if i < |s.tasks[id].deps| then
         && HasEdge(s.tasks, id, i)
         && r == SetPc(s, a, if Resolves(s, Dep(s.tasks, id, i)) then Resolved(id, x, i) else Unregistered(id, x, i))
       else
         var last := s.slots[x].pending == 1;
         var t := s.tasks[id].(guarded := false, phase := if last then Publishing(a) else Blocked);
         var dropped := SetTask(SetSlot(s, x, s.slots[x].(pending := s.slots[x].pending - 1)), id, t);
         r == if last then SetPc(dropped, a, Zeroed(id, x)) else Leave(dropped, a)
  }

  /** `try_add_successor`, one locked section that looks at the generation again. */
  ghost predicate Register(s: Sys, r: Sys, a: Agent, id: TaskId, x: nat, i: nat) {
    && HasEdge(s.tasks, id, i) && Addressed(s, Dep(s.tasks, id, i)) && Dep(s.tasks, id, i) != id
    && var d := Dep(s.tasks, id, i);
       var y := SlotOf(s, d);
       if !s.slots[y].closed && Resolves(s, d) then
         var listed := SetSlot(s, y, s.slots[y].(successors := s.slots[y].successors + [Entry(id, i)]));
         var told := SetTask(listed, d, s.tasks[d].(dependents := s.tasks[d].dependents + [Entry(id, i)]));
         r == SetPc(SetTask(told, id, s.tasks[id].(edges := s.tasks[id].edges[i := Attached])),
                    a, Scanning(id, x, i + 1))
       else r == SetPc(s, a, Unregistered(id, x, i))
  }

  /** The registration did not happen, so the submitter counts the dependency as satisfied. */
  ghost predicate CountSatisfied(s: Sys, r: Sys, a: Agent, id: TaskId, x: nat, i: nat) {
    && HasEdge(s.tasks, id, i) && x < |s.slots|
    && r == SetPc(
         SetTask(SetSlot(s, x, s.slots[x].(pending := s.slots[x].pending - 1)), id, Release(s.tasks[id], i)),
         a, Scanning(id, x, i + 1))
  }

  ghost predicate StoreQueued(s: Sys, r: Sys, a: Agent, id: TaskId, x: nat) {
    && id < |s.tasks| && x < |s.slots|
    && r == SetPc(SetState(s, x, Queued), a, Enqueuing(id))
  }

  /** `enqueue_ready`, as one insertion into the bag of runnable tasks. */
  ghost predicate Enqueue(s: Sys, r: Sys, a: Agent, id: TaskId) {
    && id < |s.tasks|
    && r == Leave(SetTask(s, id, s.tasks[id].(phase := Ready, enqueued := s.tasks[id].enqueued + 1))
                  .(ready := s.ready + multiset{id}), a)
  }

  /** Constructing the body threw: an opened slot is given back, an inline body never existed. */
  ghost predicate Throw(s: Sys, r: Sys, a: Agent) {
    && a in s.agents
    && match s.agents[a]
       case Opened(id, InPlace, x) => r == SetPc(s, a, Undoing(id, x))
       case Exhausted(id, InPlace) => id < |s.tasks| && r == SetPc(SetPhase(s, id, Dropping(a)), a, Settling(id))
       case _ => false
  }

  /** `release`, first the generation. */
  ghost predicate Bump(s: Sys, r: Sys, a: Agent, id: TaskId, x: nat, phase: Phase, pc: Pc) {
    && id < |s.tasks| && x < |s.slots|
    && r == SetPc(
         SetPhase(SetSlot(s, x, s.slots[x].(generation := s.slots[x].generation + 1, use := InTransit(a))), id, phase),
         a, pc)
  }

  /** `release`, then `reset_successors`: the list stays closed. */
  ghost predicate ResetList(s: Sys, r: Sys, a: Agent, x: nat, pc: Pc) {
    && x < |s.slots|
    && r == SetPc(SetSlot(s, x, s.slots[x].(closed := true, successors := [])), a, pc)
  }

  /** `release`, then the state. */
  ghost predicate StoreFree(s: Sys, r: Sys, a: Agent, x: nat, pc: Pc) {
    && x < |s.slots|
    && r == SetPc(SetState(s, x, Free), a, pc)
  }

  /** `release`, last the free list. */
  ghost predicate GiveBack(s: Sys, r: Sys, a: Agent, x: nat, pc: Pc) {
    && x < |s.slots|
    && r == SetPc(SetSlot(s, x, s.slots[x].(use := Listed)), a, pc)
  }

  /** `outstanding_.fetch_sub` on the paths that run inline or throw. */
  ghost predicate Settle(s: Sys, r: Sys, a: Agent, id: TaskId) {
    && id < |s.tasks|
    && var t := s.tasks[id];
       r == Leave(
         SetTask(s, id, if t.phase.Dropping? then t.(phase := Dropped)
                        else t.(phase := InlineRetired, known := true))
           .(outstanding := s.outstanding - 1), a)
  }

  /** Inline: wait for the next dependency, then start the body. */
  ghost predicate InlineNext(s: Sys, r: Sys, a: Agent, id: TaskId, j: nat) {
    && id < |s.tasks|
    && if j < |s.tasks[id].deps|
       then r == SetPc(s, a, AskGet(s.tasks[id].deps[j], InlineWait(id, j)))
       else r == SetPc(SetTask(s, id, s.tasks[id].(started := s.tasks[id].started + 1)), a, InlineRunning(id))
  }

  ghost predicate InlineReturn(s: Sys, r: Sys, a: Agent, id: TaskId) {
    && id < |s.tasks|
    && r == SetPc(SetTask(s, id, s.tasks[id].(phase := InlineFinished(a), done := true)), a, Settling(id))
  }

  // --------------------------------------------------------------- execution

  /** A worker takes a handle out of the bag. */
  ghost predicate Dequeue(s: Sys, r: Sys, a: Agent, id: TaskId) {
    && a !in s.agents && id < |s.tasks| && s.ready[id] > 0
    && r == SetPc(SetPhase(s, id, InHand(a)), a, Claimed(id)).(ready := s.ready - multiset{id})
  }

  /** `state.exchange(Executing)`, after which the body runs. */
  ghost predicate Execute(s: Sys, r: Sys, a: Agent, id: TaskId) {
    && Resolves(s, id)
    && r == SetPc(
         SetTask(SetState(s, SlotOf(s, id), Executing),
                 id, s.tasks[id].(phase := InBody(a), started := s.tasks[id].started + 1)),
         a, Running(id))
  }

  /** The body returned or threw. */
  ghost predicate BodyReturn(s: Sys, r: Sys, a: Agent, id: TaskId) {
    && id < |s.tasks|
    && r == SetPc(SetTask(s, id, s.tasks[id].(phase := Finished(a), done := true)), a, Returned(id))
  }

  /** `take_successors`: the list is closed and its contents handed over, in one locked section. */
  ghost predicate TakeSuccessors(s: Sys, r: Sys, a: Agent, id: TaskId) {
    && Resolves(s, id)
    && var x := SlotOf(s, id);
       r == SetPc(
         SetPhase(SetSlot(s, x, s.slots[x].(closed := true, successors := [])), id, Completing(a)),
         a, Drained(id, s.slots[x].successors))
  }

  ghost predicate StoreCompleted(s: Sys, r: Sys, a: Agent, id: TaskId, list: seq<Entry>) {
    && Addressed(s, id)
    && r == SetPc(SetState(s, SlotOf(s, id), Completed), a, Marked(id, list))
  }

  /** `release_dependent` looks the next dependent up; after the last, the task is settled. */
  ghost predicate Notify(s: Sys, r: Sys, a: Agent, id: TaskId, list: seq<Entry>) {
    && id < |s.tasks|
    && if list == [] then
         r == Leave(SetPhase(s, id, Retired).(outstanding := s.outstanding - 1), a)
       else
         r == SetPc(s, a, if Resolves(s, list[0].task) then Decrementing(id, list) else Notifying(id, list[1..]))
  }

  /** `pending_dependencies.fetch_sub` on a dependent; whoever takes it to zero publishes it. */
  ghost predicate Decrement(s: Sys, r: Sys, a: Agent, id: TaskId, list: seq<Entry>) {
    && id < |s.tasks| && list != [] && Addressed(s, list[0].task) && HasEdge(s.tasks, list[0].task, list[0].position)
    && list[0].task != id
    && var d := list[0].task;
       var y := SlotOf(s, d);
       var last := s.slots[y].pending == 1;
       var t := Release(s.tasks[d], list[0].position);
       var less := SetSlot(s, y, s.slots[y].(pending := s.slots[y].pending - 1));
       var told := SetTask(less, id, s.tasks[id].(dependents := list[1..]));
       r == SetPc(SetTask(told, d, if last then t.(phase := Publishing(a)) else t),
                  a, if last then DependentZeroed(id, list) else Notifying(id, list[1..]))
  }

  ghost predicate StoreDependentQueued(s: Sys, r: Sys, a: Agent, id: TaskId, list: seq<Entry>) {
    && list != [] && Addressed(s, list[0].task)
    && r == SetPc(SetState(s, SlotOf(s, list[0].task), Queued), a, DependentEnqueuing(id, list))
  }

  ghost predicate EnqueueDependent(s: Sys, r: Sys, a: Agent, id: TaskId, list: seq<Entry>) {
    && list != [] && list[0].task < |s.tasks|
    && var d := list[0].task;
       r == SetPc(SetTask(s, d, s.tasks[d].(phase := Ready, enqueued := s.tasks[d].enqueued + 1))
                  .(ready := s.ready + multiset{d}), a, Notifying(id, list[1..]))
  }

  // ------------------------------------------------------ completion queries

  /** What a query that nobody interrupts would say. */
  predicate LooksComplete(s: Sys, id: TaskId) {
    Resolves(s, id) ==> s.slots[SlotOf(s, id)].state == Completed
  }

  /** `is_complete` on a handle that a submission returned. */
  ghost predicate Ask(s: Sys, r: Sys, a: Agent, id: TaskId) {
    && a !in s.agents && id < |s.tasks| && s.tasks[id].known
    && r == SetPc(s, a, AskGet(id, Caller(LooksComplete(s, id))))
  }

  function Reply(s: Sys, a: Agent, id: TaskId, asker: Asker, answer: bool): Sys {
    match asker
    case Caller(sure) => SetPc(s, a, Answered(id, sure, answer))
    case InlineWait(task, j) => SetPc(s, a, if answer then InlineWaiting(task, j + 1) else AskGet(id, asker))
  }

  ghost predicate QueryGet(s: Sys, r: Sys, a: Agent, id: TaskId, asker: Asker) {
    r == if Resolves(s, id) then SetPc(s, a, AskState(id, asker)) else Reply(s, a, id, asker, true)
  }

  ghost predicate QueryState(s: Sys, r: Sys, a: Agent, id: TaskId, asker: Asker) {
    && Addressed(s, id)
    && r == SetPc(s, a, AskGeneration(id, asker, s.slots[SlotOf(s, id)].state))
  }

  ghost predicate QueryGeneration(s: Sys, r: Sys, a: Agent, id: TaskId, asker: Asker, seen: TaskState) {
    && Addressed(s, id)
    && r == Reply(s, a, id, asker, if Resolves(s, id) then seen == Completed else true)
  }

  // ------------------------------------------------------------------- steps

  /** The access an agent's position determines. */
  ghost predicate Go(s: Sys, r: Sys, a: Agent) {
    && a in s.agents
    && match s.agents[a]
       case Counted(_, _) => false
       case Taken(id, kind, x) => Open(s, r, a, id, kind, x)
       case Opened(id, kind, x) => Publish(s, r, a, id, kind, x)
       case Made(id, kind, x) => StoreState(s, r, a, id, kind, x)
       case MadeWaiting(id, x) => StorePending(s, r, a, id, x)
       case Scanning(id, x, i) => Scan(s, r, a, id, x, i)
       case Resolved(id, x, i) => Register(s, r, a, id, x, i)
       case Unregistered(id, x, i) => CountSatisfied(s, r, a, id, x, i)
       case Zeroed(id, x) => StoreQueued(s, r, a, id, x)
       case Enqueuing(id) => Enqueue(s, r, a, id)
       case Undoing(id, x) => Bump(s, r, a, id, x, Dropping(a), UndoBumped(id, x))
       case UndoBumped(id, x) => ResetList(s, r, a, x, UndoClosed(id, x))
       case UndoClosed(id, x) => StoreFree(s, r, a, x, UndoFreed(id, x))
       case UndoFreed(id, x) => GiveBack(s, r, a, x, Settling(id))
       case Settling(id) => Settle(s, r, a, id)
       case Exhausted(id, _) => r == SetPc(s, a, InlineWaiting(id, 0))
       case InlineWaiting(id, j) => InlineNext(s, r, a, id, j)
       case InlineRunning(id) => InlineReturn(s, r, a, id)
       case Claimed(id) => Execute(s, r, a, id)
       case Running(id) => BodyReturn(s, r, a, id)
       case Returned(id) => TakeSuccessors(s, r, a, id)
       case Drained(id, list) => StoreCompleted(s, r, a, id, list)
       case Marked(id, list) =>
         Addressed(s, id) && Bump(s, r, a, id, SlotOf(s, id), Releasing(a), Bumped(id, SlotOf(s, id), list))
       case Bumped(id, x, list) => ResetList(s, r, a, x, Closed(id, x, list))
       case Closed(id, x, list) => StoreFree(s, r, a, x, Freed(id, x, list))
       case Freed(id, x, list) => GiveBack(s, r, a, x, Notifying(id, list))
       case Notifying(id, list) => Notify(s, r, a, id, list)
       case Decrementing(id, list) => Decrement(s, r, a, id, list)
       case DependentZeroed(id, list) => StoreDependentQueued(s, r, a, id, list)
       case DependentEnqueuing(id, list) => EnqueueDependent(s, r, a, id, list)
       case AskGet(id, asker) => QueryGet(s, r, a, id, asker)
       case AskState(id, asker) => QueryState(s, r, a, id, asker)
       case AskGeneration(id, asker, seen) => QueryGeneration(s, r, a, id, asker, seen)
       case Answered(_, _, _) => r == Leave(s, a)
  }

  datatype Action =
    | Calls(kind: Kind, deps: seq<TaskId>)
    | Takes(slot: nat)
    | Exhausts
    | Throws
    | Dequeues(task: TaskId)
    | Asks(task: TaskId)
    | Goes

  ghost predicate Step(s: Sys, r: Sys, a: Agent, action: Action) {
    match action
    case Calls(kind, deps) => Call(s, r, a, kind, deps)
    case Takes(x) => Take(s, r, a, x)
    case Exhausts => Exhaust(s, r, a)
    case Throws => Throw(s, r, a)
    case Dequeues(id) => Dequeue(s, r, a, id)
    case Asks(id) => Ask(s, r, a, id)
    case Goes => Go(s, r, a)
  }

  /** A fresh runtime: every slot free, dormant and listed; nothing submitted. */
  ghost predicate Init(s: Sys) {
    && (forall x | 0 <= x < |s.slots| ::
          s.slots[x].state == Free && s.slots[x].use == Listed && s.slots[x].successors == [])
    && s.agents == map[] && s.tasks == [] && s.ready == multiset{} && s.outstanding == 0
  }

  ghost predicate Next(s: Sys, r: Sys) {
    exists a: Agent, action: Action :: Step(s, r, a, action)
  }

  ghost predicate Follows(run: seq<Sys>, i: nat)
    requires 0 < i < |run|
  {
    Next(run[i - 1], run[i])
  }

  /** Every state of `run` follows from the one before it, starting from a fresh runtime. */
  ghost predicate Run(run: seq<Sys>) {
    && run != [] && Init(run[0])
    && forall i | 0 < i < |run| :: Follows(run, i)
  }
}
