/**
 Blocking waits: `wait(handle)` and `wait_all()` called by external threads, against the
 completing threads that must wake them. One step is one atomic access, one operation on the
 completion mutex, or one operation on the condition variable.

 A task here is a handle some submission returned. Whether it is complete is one flag, set by
 the store of Completed; a completion query is a step that begins and a step that answers, and
 all that is assumed of the answer is what RuntimeTheorems proves of it: `true` only once the
 body has returned, and `true` if the handle was already complete when the query began.
 */
module WaitingModel {

  type Agent = nat
  type TaskId = nat

  const MAX_HANDLE_WAITER_SLOTS := 32

  /** A table cell: the awaited pool index, and the waiter that wrote it. */
  datatype Cell = Vacant | Awaited(index: nat, owner: Agent)

  datatype Task = Task(index: nat, done: bool, complete: bool, settled: bool, completer: Agent)

  /** Which path last took `outstanding_` to zero. */
  datatype Zeroing = Never | ByComplete(agent: Agent) | ByInlinePath

  datatype Pc =
    // complete()
    | Finishing(task: TaskId)
    | Marked(task: TaskId)
    | Subtracted(task: TaskId, remaining: int)
    | SeenWaiters(task: TaskId, remaining: int)
    | Scanning(task: TaskId, remaining: int, next: nat)
    | Deciding(task: TaskId, remaining: int, wake: bool)
    | Locking(task: TaskId)
    | Locked(task: TaskId)
    | Notifying(task: TaskId)
    // wait(handle)
    | Checking(task: TaskId, sure: bool)
    | Registering(task: TaskId, next: nat)
    | Registered(task: TaskId, slot: nat)
    | AtDoor(task: TaskId, slot: nat)
    | Inside(task: TaskId, slot: nat)
    | Evaluating(task: TaskId, slot: nat, sure: bool)
    | Dozing(task: TaskId, slot: nat)
    | Asleep(task: TaskId, slot: nat, notified: bool)
    | Satisfied(task: TaskId, slot: nat)
    | Departing(task: TaskId, slot: nat)
    | Unregistering(task: TaskId, slot: nat)
    // wait_all()
    | AllArriving
    | AllAtDoor
    | AllInside
    | AllDozing
    | AllAsleep(notified: bool)
    | AllSatisfied
    | AllDeparting

  datatype Mutex = Unlocked | HeldBy(agent: Agent)

  datatype Sys = Sys(
    tasks: seq<Task>,
    agents: map<Agent, Pc>,
    table: seq<Cell>,
    overflow: int,
    handleWaiters: int,
    allWaiters: int,
    mutex: Mutex,
    counted: nat,
    outstanding: int,
    zeroing: Zeroing
  )

  function SetPc(s: Sys, a: Agent, pc: Pc): Sys { s.(agents := s.agents[a := pc]) }

  function Leave(s: Sys, a: Agent): Sys { s.(agents := s.agents - {a}) }

  function SetTask(s: Sys, t: TaskId, task: Task): Sys
    requires t < |s.tasks|
  { s.(tasks := s.tasks[t := task]) }

  /** `outstanding_.fetch_sub(1)`. */
  function Subtract(s: Sys, path: Zeroing): Sys {
    s.(outstanding := s.outstanding - 1, zeroing := if s.outstanding == 1 then path else s.zeroing)
  }

  function Notified(pc: Pc): Pc {
    if pc.Asleep? || pc.AllAsleep? then pc.(notified := true) else pc
  }

  /** `completion_cv_.notify_all()`. */
  function NotifyAll(agents: map<Agent, Pc>): map<Agent, Pc> { map a | a in agents :: Notified(agents[a]) }

  /** The names a position carries are names of this system. */
  predicate Placed(s: Sys, pc: Pc) {
    match pc
    case Finishing(t) => t < |s.tasks|
    case Marked(t) => t < |s.tasks|
    case Scanning(t, _, _) => t < |s.tasks|
    case Checking(t, _) => t < |s.tasks|
    case Registering(t, _) => t < |s.tasks|
    case Inside(t, _) => t < |s.tasks|
    case Evaluating(t, _, _) => t < |s.tasks|
    case _ => true
  }

  /**
   What an agent needs for its next access: the mutex free if it is about to lock it, and an
   answer that a completion query can give if it is asking for one.
   */
  predicate Enabled(s: Sys, pc: Pc, answer: bool) {
    && Placed(s, pc)
    && (pc.Locking? || pc.AtDoor? || pc.AllAtDoor? ==> s.mutex.Unlocked?)
    && (pc.Checking? || pc.Evaluating? ==> (answer ==> s.tasks[pc.task].done) && (pc.sure ==> answer))
  }

  /** `complete`, from the store of Completed on. */
  function Complete(s: Sys, a: Agent, pc: Pc): Sys
    requires Placed(s, pc)
  {
    match pc
    case Finishing(t) => SetPc(SetTask(s, t, s.tasks[t].(complete := true)), a, Marked(t))
    case Marked(t) =>
      SetPc(SetTask(Subtract(s, ByComplete(a)), t, s.tasks[t].(settled := true)), a, Subtracted(t, s.outstanding - 1))
    case Subtracted(t, n) => SetPc(s, a, if s.handleWaiters != 0 then SeenWaiters(t, n) else Deciding(t, n, false))
    case SeenWaiters(t, n) => SetPc(s, a, if s.overflow != 0 then Deciding(t, n, true) else Scanning(t, n, 0))
    case Scanning(t, n, j) =>
      if j >= |s.table| then SetPc(s, a, Deciding(t, n, false))
      else if s.table[j].Awaited? && s.table[j].index == s.tasks[t].index then SetPc(s, a, Deciding(t, n, true))
      else SetPc(s, a, Scanning(t, n, j + 1))
    case Deciding(t, n, wake) =>
      if wake || (n == 0 && s.allWaiters != 0) then SetPc(s, a, Locking(t)) else Leave(s, a)
    case Locking(t) => SetPc(s, a, Locked(t)).(mutex := HeldBy(a))
    case Locked(t) => SetPc(s, a, Notifying(t)).(mutex := Unlocked)
    case Notifying(t) => Leave(s.(agents := NotifyAll(s.agents)), a)
    case _ => s
  }

  /** `wait`, with `register_handle_waiter` and `unregister_handle_waiter`. */
  function Wait(s: Sys, a: Agent, pc: Pc, answer: bool): Sys
    requires Placed(s, pc)
  {
    match pc
    case Checking(t, _) => if answer then Leave(s, a) else SetPc(s, a, Registering(t, 0))
    case Registering(t, i) =>
      if i >= |s.table| then SetPc(s, a, Registered(t, i)).(overflow := s.overflow + 1)
      else if s.table[i].Vacant? then
        SetPc(s, a, Registered(t, i)).(table := s.table[i := Awaited(s.tasks[t].index, a)])
      else SetPc(s, a, Registering(t, i + 1))
    case Registered(t, i) => SetPc(s, a, AtDoor(t, i)).(handleWaiters := s.handleWaiters + 1)
    case AtDoor(t, i) => SetPc(s, a, Inside(t, i)).(mutex := HeldBy(a))
    case Inside(t, i) => SetPc(s, a, Evaluating(t, i, s.tasks[t].complete))
    case Evaluating(t, i, _) => SetPc(s, a, if answer then Satisfied(t, i) else Dozing(t, i))
    case Dozing(t, i) => SetPc(s, a, Asleep(t, i, false)).(mutex := Unlocked)
    case Asleep(t, i, _) => SetPc(s, a, AtDoor(t, i))
    case Satisfied(t, i) => SetPc(s, a, Departing(t, i)).(mutex := Unlocked)
    case Departing(t, i) => SetPc(s, a, Unregistering(t, i)).(handleWaiters := s.handleWaiters - 1)
    case Unregistering(t, i) =>
      if i >= |s.table| then Leave(s, a).(overflow := s.overflow - 1)
      else Leave(s, a).(table := s.table[i := Vacant])
    case _ => s
  }

  /** `wait_all`, past its first look at the counter. */
  function WaitAll(s: Sys, a: Agent, pc: Pc): Sys {
    match pc
    case AllArriving => SetPc(s, a, AllAtDoor).(allWaiters := s.allWaiters + 1)
    case AllAtDoor => SetPc(s, a, AllInside).(mutex := HeldBy(a))
    case AllInside => SetPc(s, a, if s.outstanding == 0 then AllSatisfied else AllDozing)
    case AllDozing => SetPc(s, a, AllAsleep(false)).(mutex := Unlocked)
    case AllAsleep(_) => SetPc(s, a, AllAtDoor)
    case AllSatisfied => SetPc(s, a, AllDeparting).(mutex := Unlocked)
    case AllDeparting => Leave(s, a).(allWaiters := s.allWaiters - 1)
    case _ => s
  }

  predicate IsCompleter(pc: Pc) {
    || pc.Finishing? || pc.Marked? || pc.Subtracted? || pc.SeenWaiters? || pc.Scanning? || pc.Deciding?
    || pc.Locking? || pc.Locked? || pc.Notifying?
  }

  predicate IsAllWaiter(pc: Pc) {
    || pc.AllArriving? || pc.AllAtDoor? || pc.AllInside? || pc.AllDozing? || pc.AllAsleep?
    || pc.AllSatisfied? || pc.AllDeparting?
  }

  /** The state after the next access of `a`. A sleeping thread may wake at any time, notified or not. */
  function Go(s: Sys, a: Agent, answer: bool): Sys
    requires a in s.agents && Placed(s, s.agents[a])
  {
    var pc := s.agents[a];
    if IsCompleter(pc) then Complete(s, a, pc)
    else if IsAllWaiter(pc) then WaitAll(s, a, pc)
    else Wait(s, a, pc, answer)
  }

  /**
   Counts: a submission adds itself to `outstanding_`. Issues: it returns a handle. Settles: it
   ran its body inline, or its construction threw, and it takes itself off again. Returns: the
   body of a task in the pool returned, and the thread that ran it enters `complete`.
   */
  datatype Action =
    | Counts
    | Issues(index: nat)
    | Settles
    | Returns(task: TaskId)
    | Waits(task: TaskId)
    | WaitsAll
    | Goes(answer: bool)

  ghost predicate Step(s: Sys, r: Sys, a: Agent, action: Action) {
    match action
    case Counts => r == s.(counted := s.counted + 1, outstanding := s.outstanding + 1)
    case Issues(x) =>
      s.counted > 0 && r == s.(counted := s.counted - 1, tasks := s.tasks + [Task(x, false, false, false, a)])
    case Settles => s.counted > 0 && r == Subtract(s, ByInlinePath).(counted := s.counted - 1)
    case Returns(t) =>
      && a !in s.agents && t < |s.tasks| && !s.tasks[t].done
      && r == SetPc(SetTask(s, t, s.tasks[t].(done := true, completer := a)), a, Finishing(t))
    case Waits(t) =>
      a !in s.agents && t < |s.tasks| && r == SetPc(s, a, Checking(t, s.tasks[t].complete))
    case WaitsAll => a !in s.agents && r == if s.outstanding == 0 then s else SetPc(s, a, AllArriving)
    case Goes(answer) => a in s.agents && Enabled(s, s.agents[a], answer) && r == Go(s, a, answer)
  }

  ghost predicate Init(s: Sys) {
    s == Sys([], map[], seq(MAX_HANDLE_WAITER_SLOTS, i => Vacant), 0, 0, 0, Unlocked, 0, 0, Never)
  }

  ghost predicate Next(s: Sys, r: Sys) {
    exists a: Agent, action: Action :: Step(s, r, a, action)
  }

  ghost predicate Follows(run: seq<Sys>, i: nat)
    requires 0 < i < |run|
  {
    Next(run[i - 1], run[i])
  }

  ghost predicate Run(run: seq<Sys>) {
    && run != [] && Init(run[0])
    && forall i | 0 < i < |run| :: Follows(run, i)
  }
}
