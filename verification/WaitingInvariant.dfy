/** What holds in every reachable state of the waiting protocol. */
module WaitingInvariant {
  import opened WaitingModel

  // ---------------------------------------------------------------- counting

  function CountUnsettled(tasks: seq<Task>): (n: nat) {
    if tasks == [] then 0
    else CountUnsettled(tasks[..|tasks| - 1]) + if tasks[|tasks| - 1].settled then 0 else 1
  }

  /** The agents whose position satisfies `p`. */
  ghost function Who(agents: map<Agent, Pc>, p: Pc -> bool): set<Agent> { set a | a in agents && p(agents[a]) }

  /** Between claiming a cell, or adding to the overflow count, and giving it back. */
  predicate HasPlace(pc: Pc) {
    || pc.Registered? || pc.AtDoor? || pc.Inside? || pc.Evaluating? || pc.Dozing? || pc.Asleep?
    || pc.Satisfied? || pc.Departing? || pc.Unregistering?
  }

  predicate Overflowed(pc: Pc) { HasPlace(pc) && pc.slot >= MAX_HANDLE_WAITER_SLOTS }

  predicate CountsAsHandleWaiter(pc: Pc) { HasPlace(pc) && !pc.Registered? && !pc.Unregistering? }

  predicate CountsAsAllWaiter(pc: Pc) { IsAllWaiter(pc) && !pc.AllArriving? }

  ghost predicate CountersOk(s: Sys) {
    && s.overflow == |Who(s.agents, Overflowed)|
    && s.handleWaiters == |Who(s.agents, CountsAsHandleWaiter)|
    && s.allWaiters == |Who(s.agents, CountsAsAllWaiter)|
    && s.outstanding == s.counted + CountUnsettled(s.tasks)
  }

  // ------------------------------------------------------------------ agents

  predicate HoldsMutex(pc: Pc) {
    || pc.Locked? || pc.Inside? || pc.Evaluating? || pc.Dozing? || pc.Satisfied?
    || pc.AllInside? || pc.AllDozing? || pc.AllSatisfied?
  }

  predicate PcOk(s: Sys, a: Agent, pc: Pc) {
    && (!IsAllWaiter(pc) ==> pc.task < |s.tasks|)
    && (IsCompleter(pc) ==>
          var t := s.tasks[pc.task];
          && t.completer == a && t.done
          && (t.complete <==> !pc.Finishing?)
          && (t.settled <==> !pc.Finishing? && !pc.Marked?))
    && (HasPlace(pc) ==>
          if pc.slot < |s.table| then s.table[pc.slot] == Awaited(s.tasks[pc.task].index, a)
          else pc.slot == |s.table|)
    && (pc.Registering? ==> pc.next <= |s.table|)
    && (pc.Satisfied? || pc.Departing? || pc.Unregistering? ==> s.tasks[pc.task].done)
    && ((pc.Checking? || pc.Evaluating?) && pc.sure ==> s.tasks[pc.task].done)
    && (HoldsMutex(pc) ==> s.mutex == HeldBy(a))
  }

  ghost predicate AgentsOk(s: Sys) {
    forall a | a in s.agents :: PcOk(s, a, s.agents[a])
  }

  ghost predicate PlacesOk(s: Sys) {
    && |s.table| == MAX_HANDLE_WAITER_SLOTS
    && (forall j | 0 <= j < |s.table| && s.table[j].Awaited? ::
          var a := s.table[j].owner; a in s.agents && HasPlace(s.agents[a]) && s.agents[a].slot == j)
    && (s.mutex.HeldBy? ==> s.mutex.agent in s.agents && HoldsMutex(s.agents[s.mutex.agent]))
  }

  predicate TaskOk(t: Task) { (t.complete ==> t.done) && (t.settled ==> t.complete) }

  ghost predicate TasksOk(tasks: seq<Task>) {
    forall t | 0 <= t < |tasks| :: TaskOk(tasks[t])
  }

  // ----------------------------------------------------------------- wakeups

  /** A completer at `pc` cannot leave `complete` without notifying a waiter for `t` in place `slot`. */
  predicate Reaches(pc: Pc, t: TaskId, slot: nat) {
    && IsCompleter(pc) && !pc.Finishing? && pc.task == t
    && (pc.Scanning? ==> slot < MAX_HANDLE_WAITER_SLOTS && pc.next <= slot)
    && (pc.Deciding? ==> pc.wake)
  }

  predicate OnTheWay(s: Sys, t: TaskId, slot: nat)
    requires t < |s.tasks|
  {
    s.tasks[t].completer in s.agents && Reaches(s.agents[s.tasks[t].completer], t, slot)
  }

  /** A completer at `pc` saw zero and cannot leave `complete` without notifying the `wait_all` callers. */
  predicate ReachesAll(pc: Pc) {
    || pc.Locking? || pc.Locked? || pc.Notifying?
    || ((pc.Subtracted? || pc.SeenWaiters? || pc.Scanning? || pc.Deciding?) && pc.remaining == 0)
  }

  predicate AllOnTheWay(s: Sys) {
    s.zeroing.ByComplete? ==> s.zeroing.agent in s.agents && ReachesAll(s.agents[s.zeroing.agent])
  }

  /** Committed to sleep, or asleep and not notified. */
  predicate Committed(pc: Pc) {
    pc.Dozing? || (pc.Evaluating? && !pc.sure) || (pc.Asleep? && !pc.notified)
  }

  predicate AllCommitted(pc: Pc) { pc.AllDozing? || (pc.AllAsleep? && !pc.notified) }

  /** Its completer has not yet reached `notify_all`, if the waiter is not asleep yet. */
  predicate NotTooLate(s: Sys, pc: Pc, c: Agent) { pc.Asleep? || pc.AllAsleep? || (c in s.agents ==> !s.agents[c].Notifying?) }

  /** A committed waiter whose handle is complete: the completer is on its way. */
  predicate HandleWakeOk(s: Sys, pc: Pc) {
    Committed(pc) && pc.task < |s.tasks| && s.tasks[pc.task].complete ==>
      OnTheWay(s, pc.task, pc.slot) && NotTooLate(s, pc, s.tasks[pc.task].completer)
  }

  /** A committed `wait_all` caller while nothing is outstanding: if `complete` made it so, it is on its way. */
  predicate AllWakeOk(s: Sys, pc: Pc) {
    AllCommitted(pc) && s.outstanding == 0 ==>
      && s.zeroing != Never && AllOnTheWay(s)
      && (s.zeroing.ByComplete? ==> NotTooLate(s, pc, s.zeroing.agent))
  }

  ghost predicate WakesOk(s: Sys) {
    forall a | a in s.agents :: HandleWakeOk(s, s.agents[a]) && AllWakeOk(s, s.agents[a])
  }

  ghost predicate Inv(s: Sys) {
    CountersOk(s) && AgentsOk(s) && PlacesOk(s) && TasksOk(s.tasks) && WakesOk(s)
  }
}
