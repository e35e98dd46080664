/** Every step of the waiting protocol keeps its invariant. */
module WaitingSteps {
  import opened WaitingModel
  import opened WaitingInvariant

  // One fact out of the invariant at a time.

  lemma PcHolds(s: Sys, a: Agent)
    requires Inv(s) && a in s.agents
    ensures PcOk(s, a, s.agents[a])
  {
  }

  lemma WakeHolds(s: Sys, a: Agent)
    requires Inv(s) && a in s.agents
    ensures HandleWakeOk(s, s.agents[a]) && AllWakeOk(s, s.agents[a])
  {
  }

  lemma CountersHold(s: Sys)
    requires Inv(s)
    ensures CountersOk(s)
  {
  }

  lemma TaskHolds(s: Sys, t: TaskId)
    requires Inv(s) && t < |s.tasks|
    ensures TaskOk(s.tasks[t])
  {
  }

  // ---------------------------------------------------------------- counting

  lemma {:induction false} UnsettledOne(tasks: seq<Task>, i: nat, t: Task)
    requires i < |tasks|
    ensures CountUnsettled(tasks[i := t]) ==
      CountUnsettled(tasks) - (if tasks[i].settled then 0 else 1) + if t.settled then 0 else 1
    ensures CountUnsettled(tasks) >= if tasks[i].settled then 0 else 1
  {
    var n := |tasks| - 1;
    assert tasks[i := t][..n] == if i < n then tasks[..n][i := t] else tasks[..n];
    if i < n { UnsettledOne(tasks[..n], i, t); }
  }

  function One(b: bool): int { if b then 1 else 0 }

  /** Only the position of `a` differs. */
  ghost predicate OnlyAgent(agents: map<Agent, Pc>, after: map<Agent, Pc>, a: Agent) {
    after == agents - {a} || (a in after && after == agents[a := after[a]])
  }

  lemma OthersStay(agents: map<Agent, Pc>, after: map<Agent, Pc>, a: Agent)
    requires OnlyAgent(agents, after, a)
    ensures forall b | b in agents && b != a :: b in after && after[b] == agents[b]
    ensures forall b | b in after && b != a :: b in agents
  {
  }

  lemma WhoElse(agents: map<Agent, Pc>, after: map<Agent, Pc>, a: Agent, p: Pc -> bool)
    requires OnlyAgent(agents, after, a)
    ensures Who(after, p) - {a} == Who(agents, p) - {a}
  {
    OthersStay(agents, after, a);
  }

  lemma WithoutOne(agents: map<Agent, Pc>, a: Agent, p: Pc -> bool)
    ensures |Who(agents, p) - {a}| == |Who(agents, p)| - One(a in agents && p(agents[a]))
  {
    if a in Who(agents, p) {
    } else {
      assert Who(agents, p) - {a} == Who(agents, p);
    }
  }

  lemma WhoMoves(agents: map<Agent, Pc>, after: map<Agent, Pc>, a: Agent, p: Pc -> bool)
    requires OnlyAgent(agents, after, a)
    ensures |Who(after, p)| - One(a in after && p(after[a])) == |Who(agents, p)| - One(a in agents && p(agents[a]))
  {
    hide OnlyAgent, Who;
    WhoElse(agents, after, a, p);
    WithoutOne(agents, a, p);
    WithoutOne(after, a, p);
  }

  lemma WhoNotified(agents: map<Agent, Pc>, p: Pc -> bool)
    requires forall pc :: p(Notified(pc)) == p(pc)
    ensures Who(NotifyAll(agents), p) == Who(agents, p)
  {
  }

  function InOverflow(agents: map<Agent, Pc>, a: Agent): int { One(a in agents && Overflowed(agents[a])) }

  function InHandleWaiters(agents: map<Agent, Pc>, a: Agent): int {
    One(a in agents && CountsAsHandleWaiter(agents[a]))
  }

  function InAllWaiters(agents: map<Agent, Pc>, a: Agent): int { One(a in agents && CountsAsAllWaiter(agents[a])) }

  /** A step of one agent changes the counters by what that agent changes. */
  lemma CountersMove(s: Sys, r: Sys, a: Agent)
    requires CountersOk(s) && OnlyAgent(s.agents, r.agents, a)
    requires r.overflow - InOverflow(r.agents, a) == s.overflow - InOverflow(s.agents, a)
    requires r.handleWaiters - InHandleWaiters(r.agents, a) == s.handleWaiters - InHandleWaiters(s.agents, a)
    requires r.allWaiters - InAllWaiters(r.agents, a) == s.allWaiters - InAllWaiters(s.agents, a)
    requires r.outstanding - r.counted - CountUnsettled(r.tasks) == s.outstanding - s.counted - CountUnsettled(s.tasks)
    ensures CountersOk(r)
  {
    WhoMoves(s.agents, r.agents, a, Overflowed);
    WhoMoves(s.agents, r.agents, a, CountsAsHandleWaiter);
    WhoMoves(s.agents, r.agents, a, CountsAsAllWaiter);
  }

  predicate IsSettled(pc: Pc) {
    pc.Subtracted? || pc.SeenWaiters? || pc.Scanning? || pc.Deciding? || pc.Locking? || pc.Locked?
  }

  predicate IsArriving(pc: Pc) { pc.Checking? || pc.Registering? || pc.Registered? || pc.AtDoor? || pc.Unregistering? }

  /** A step by the agent alone, with nobody notified. */
  predicate Quietly(s: Sys, r: Sys, a: Agent, answer: bool) {
    a in s.agents && Placed(s, s.agents[a]) && !s.agents[a].Notifying? && r == Go(s, a, answer)
  }

  lemma OnlyAgentGoes(s: Sys, r: Sys, a: Agent, answer: bool)
    requires Quietly(s, r, a, answer)
    ensures OnlyAgent(s.agents, r.agents, a)
  {
  }

  lemma PlaceFollows(s: Sys, r: Sys, a: Agent, answer: bool)
    requires Quietly(s, r, a, answer) && PcOk(s, a, s.agents[a]) && |s.table| == MAX_HANDLE_WAITER_SLOTS
    requires s.agents[a].Registering? || s.agents[a].Unregistering?
    ensures r.overflow - InOverflow(r.agents, a) == s.overflow - InOverflow(s.agents, a)
  {
    hide Complete, WaitAll;
  }

  /** Outside `register_handle_waiter` and `unregister_handle_waiter` nothing is counted in or out. */
  lemma OverflowOfCompleter(s: Sys, r: Sys, a: Agent, answer: bool)
    requires Quietly(s, r, a, answer) && IsCompleter(s.agents[a])
    ensures r.overflow - InOverflow(r.agents, a) == s.overflow - InOverflow(s.agents, a)
  {
    hide Wait, WaitAll;
  }

  lemma OverflowOfAllWaiter(s: Sys, r: Sys, a: Agent, answer: bool)
    requires Quietly(s, r, a, answer) && IsAllWaiter(s.agents[a])
    ensures r.overflow - InOverflow(r.agents, a) == s.overflow - InOverflow(s.agents, a)
  {
    hide Complete, Wait;
  }

  lemma OverflowOfWaiter(s: Sys, r: Sys, a: Agent, answer: bool)
    requires Quietly(s, r, a, answer) && !IsCompleter(s.agents[a]) && !IsAllWaiter(s.agents[a])
    requires !s.agents[a].Registering? && !s.agents[a].Unregistering?
    ensures r.overflow - InOverflow(r.agents, a) == s.overflow - InOverflow(s.agents, a)
  {
    hide Complete, WaitAll;
  }

  lemma OverflowFollows(s: Sys, r: Sys, a: Agent, answer: bool)
    requires Quietly(s, r, a, answer) && PcOk(s, a, s.agents[a]) && |s.table| == MAX_HANDLE_WAITER_SLOTS
    ensures r.overflow - InOverflow(r.agents, a) == s.overflow - InOverflow(s.agents, a)
  {
    hide PcOk, Go, InOverflow, IsCompleter, IsAllWaiter;
    if s.agents[a].Registering? || s.agents[a].Unregistering? {
      PlaceFollows(s, r, a, answer);
    } else if IsCompleter(s.agents[a]) {
      OverflowOfCompleter(s, r, a, answer);
    } else if IsAllWaiter(s.agents[a]) {
      OverflowOfAllWaiter(s, r, a, answer);
    } else {
      OverflowOfWaiter(s, r, a, answer);
    }
  }

  lemma HandleWaitersFollow(s: Sys, r: Sys, a: Agent, answer: bool)
    requires Quietly(s, r, a, answer)
    ensures r.handleWaiters - InHandleWaiters(r.agents, a) == s.handleWaiters - InHandleWaiters(s.agents, a)
  {
  }

  lemma AllWaitersFollow(s: Sys, r: Sys, a: Agent, answer: bool)
    requires Quietly(s, r, a, answer)
    ensures r.allWaiters - InAllWaiters(r.agents, a) == s.allWaiters - InAllWaiters(s.agents, a)
  {
  }

  lemma OutstandingFollows(s: Sys, r: Sys, a: Agent, answer: bool)
    requires Quietly(s, r, a, answer) && PcOk(s, a, s.agents[a])
    ensures r.outstanding - r.counted - CountUnsettled(r.tasks) == s.outstanding - s.counted - CountUnsettled(s.tasks)
  {
    var pc := s.agents[a];
    if IsCompleter(pc) { UnsettledOne(s.tasks, pc.task, r.tasks[pc.task]); }
  }

  lemma QuietCounters(s: Sys, r: Sys, a: Agent, answer: bool)
    requires Inv(s) && Quietly(s, r, a, answer)
    ensures CountersOk(r)
  {
    hide Inv, CountersOk, Quietly, PcOk, OnlyAgent, Overflowed, CountsAsHandleWaiter, CountsAsAllWaiter;
    assert a in s.agents by { QuietlyInside(s, r, a, answer); }
    PcHolds(s, a);
    TableLongEnough(s);
    CountersHold(s);
    OnlyAgentGoes(s, r, a, answer);
    OverflowFollows(s, r, a, answer);
    HandleWaitersFollow(s, r, a, answer);
    AllWaitersFollow(s, r, a, answer);
    OutstandingFollows(s, r, a, answer);
    CountersMove(s, r, a);
  }

  lemma QuietlyInside(s: Sys, r: Sys, a: Agent, answer: bool)
    requires Quietly(s, r, a, answer)
    ensures a in s.agents
  {
  }

  lemma TableLongEnough(s: Sys)
    requires Inv(s)
    ensures |s.table| == MAX_HANDLE_WAITER_SLOTS
  {
  }

  lemma NotifyCounters(s: Sys, r: Sys, a: Agent, answer: bool)
    requires Inv(s) && a in s.agents && s.agents[a].Notifying? && r == Go(s, a, answer)
    ensures CountersOk(r)
  {
    hide Inv, Who, Wait, WaitAll;
    CountersHold(s);
    WhoNotified(s.agents, Overflowed);
    WhoNotified(s.agents, CountsAsHandleWaiter);
    WhoNotified(s.agents, CountsAsAllWaiter);
    CountersMove(s.(agents := NotifyAll(s.agents)), r, a);
  }

  // ------------------------------------------------------------ other agents

  /** What a step of `a` leaves alone for the others. */
  ghost predicate Spares(s: Sys, r: Sys, a: Agent) {
    && |s.tasks| <= |r.tasks| && |s.table| == |r.table|
    && (forall t | 0 <= t < |s.tasks| :: TaskSpared(s.tasks[t], r.tasks[t], a))
    && (forall j | 0 <= j < |s.table| && s.table[j].Awaited? && s.table[j].owner != a :: r.table[j] == s.table[j])
    && (s.mutex.HeldBy? && s.mutex.agent != a ==> r.mutex == s.mutex)
  }

  predicate TaskSpared(t: Task, u: Task, a: Agent) {
    && u.index == t.index && (t.done ==> u.done && u.completer == t.completer)
    && (t.done && t.completer != a ==> u == t)
  }

  lemma OtherSpared(s: Sys, r: Sys, a: Agent, b: Agent, pc: Pc)
    requires Spares(s, r, a) && a != b && PcOk(s, b, pc)
    ensures PcOk(r, b, pc) && PcOk(r, b, Notified(pc))
  {
    if !IsAllWaiter(pc) { assert TaskSpared(s.tasks[pc.task], r.tasks[pc.task], a); }
  }

  /** The agents after a step of `a`: its own position moved, and sleepers may have been notified. */
  ghost predicate Others(s: Sys, r: Sys, a: Agent) {
    forall b | b in r.agents && b != a :: b in s.agents && (r.agents[b] == s.agents[b] || r.agents[b] == Notified(s.agents[b]))
  }

  lemma AgentsMove(s: Sys, r: Sys, a: Agent)
    requires AgentsOk(s) && Spares(s, r, a) && Others(s, r, a)
    requires a in r.agents ==> PcOk(r, a, r.agents[a])
    ensures AgentsOk(r)
  {
    hide Spares, PcOk;
    forall b | b in r.agents ensures PcOk(r, b, r.agents[b]) {
      if b != a { OtherSpared(s, r, a, b, s.agents[b]); }
    }
  }

  // -------------------------------------------- positions, places and tasks

  /** All of the invariant but the counters and the wakeups. */
  ghost predicate Grounded(s: Sys) { AgentsOk(s) && PlacesOk(s) && TasksOk(s.tasks) }

  lemma IsGrounded(s: Sys)
    requires Inv(s)
    ensures Grounded(s)
  {
  }

  /** The table after a step of `a`: the cells it has are its own, the others are as they were. */
  ghost predicate TableMoves(s: Sys, r: Sys, a: Agent) {
    && |r.table| == |s.table|
    && forall j | 0 <= j < |r.table| && r.table[j].Awaited? ::
         if r.table[j].owner == a then a in r.agents && HasPlace(r.agents[a]) && r.agents[a].slot == j
         else s.table[j] == r.table[j]
  }

  predicate MutexMoves(s: Sys, r: Sys, a: Agent) {
    r.mutex.HeldBy? ==> if r.mutex.agent == a then a in r.agents && HoldsMutex(r.agents[a]) else r.mutex == s.mutex
  }

  ghost predicate OthersMove(s: Sys, r: Sys, a: Agent) {
    forall b | b in s.agents && b != a :: b in r.agents && (r.agents[b] == s.agents[b] || r.agents[b] == Notified(s.agents[b]))
  }

  lemma PlacesMove(s: Sys, r: Sys, a: Agent)
    requires PlacesOk(s) && OthersMove(s, r, a) && TableMoves(s, r, a) && MutexMoves(s, r, a)
    ensures PlacesOk(r)
  {
  }

  lemma GroundedMoves(s: Sys, r: Sys, a: Agent)
    requires Grounded(s) && Others(s, r, a) && OthersMove(s, r, a)
    requires Spares(s, r, a) && TableMoves(s, r, a) && MutexMoves(s, r, a)
    requires a in r.agents ==> PcOk(r, a, r.agents[a])
    requires forall t | 0 <= t < |r.tasks| :: (t < |s.tasks| && s.tasks[t] == r.tasks[t]) || TaskOk(r.tasks[t])
    ensures Grounded(r)
  {
    assert AgentsOk(r) by { hide PcOk, Spares, TableMoves, MutexMoves, PlacesOk; AgentsMove(s, r, a); }
    assert PlacesOk(r) by { hide PcOk, Spares, TableMoves, MutexMoves, PlacesOk; PlacesMove(s, r, a); }
  }

  lemma CellsHold(s: Sys, a: Agent)
    requires Inv(s)
    ensures |s.table| == MAX_HANDLE_WAITER_SLOTS
    ensures forall j | 0 <= j < |s.table| && s.table[j].Awaited? && s.table[j].owner == a ::
      a in s.agents && HasPlace(s.agents[a]) && s.agents[a].slot == j
    ensures s.mutex == HeldBy(a) ==> a in s.agents && HoldsMutex(s.agents[a])
  {
  }

  lemma OthersKept(s: Sys, r: Sys, a: Agent)
    requires OnlyAgent(s.agents, r.agents, a)
    ensures Others(s, r, a) && OthersMove(s, r, a)
  {
  }

  lemma RegisteringGrounded(s: Sys, r: Sys, a: Agent, answer: bool)
    requires Inv(s) && a in s.agents && Enabled(s, s.agents[a], answer) && r == Go(s, a, answer)
    requires s.agents[a].Registering? || s.agents[a].Unregistering?
    ensures Grounded(r)
  {
    hide Inv, Grounded, Others, OthersMove, Complete, WaitAll;
    PcHolds(s, a);
    CellsHold(s, a);
    IsGrounded(s);
    OthersKept(s, r, a);
    GroundedMoves(s, r, a);
  }

  lemma ArrivingGrounded(s: Sys, r: Sys, a: Agent, answer: bool)
    requires Inv(s) && a in s.agents && Enabled(s, s.agents[a], answer) && r == Go(s, a, answer)
    requires IsArriving(s.agents[a]) && !s.agents[a].Registering? && !s.agents[a].Unregistering?
    ensures Grounded(r)
  {
    hide Inv, Grounded, Others, OthersMove, Complete, WaitAll;
    PcHolds(s, a);
    CellsHold(s, a);
    IsGrounded(s);
    OthersKept(s, r, a);
    GroundedMoves(s, r, a);
  }

  lemma InsideGrounded(s: Sys, r: Sys, a: Agent, answer: bool)
    requires Inv(s) && a in s.agents && Enabled(s, s.agents[a], answer) && r == Go(s, a, answer)
    requires !IsCompleter(s.agents[a]) && !IsAllWaiter(s.agents[a]) && !IsArriving(s.agents[a])
    ensures Grounded(r)
  {
    hide Inv, Grounded, Others, OthersMove, Complete, WaitAll;
    PcHolds(s, a);
    TaskHolds(s, s.agents[a].task);
    CellsHold(s, a);
    IsGrounded(s);
    OthersKept(s, r, a);
    GroundedMoves(s, r, a);
  }

  lemma AllOutsideGrounded(s: Sys, r: Sys, a: Agent, answer: bool)
    requires Inv(s) && a in s.agents && Enabled(s, s.agents[a], answer) && r == Go(s, a, answer)
    requires IsAllWaiter(s.agents[a]) && !HoldsMutex(s.agents[a])
    ensures Grounded(r)
  {
    hide Inv, Grounded, Others, OthersMove, Complete, Wait;
    PcHolds(s, a);
    CellsHold(s, a);
    IsGrounded(s);
    OthersKept(s, r, a);
    GroundedMoves(s, r, a);
  }

  lemma AllInsideGrounded(s: Sys, r: Sys, a: Agent, answer: bool)
    requires Inv(s) && a in s.agents && Enabled(s, s.agents[a], answer) && r == Go(s, a, answer)
    requires IsAllWaiter(s.agents[a]) && HoldsMutex(s.agents[a])
    ensures Grounded(r)
  {
    hide Inv, Grounded, Others, OthersMove, Complete, Wait;
    PcHolds(s, a);
    CellsHold(s, a);
    IsGrounded(s);
    OthersKept(s, r, a);
    GroundedMoves(s, r, a);
  }

  lemma SettlingGrounded(s: Sys, r: Sys, a: Agent, answer: bool)
    requires Inv(s) && a in s.agents && Enabled(s, s.agents[a], answer) && r == Go(s, a, answer)
    requires s.agents[a].Finishing? || s.agents[a].Marked?
    ensures Grounded(r)
  {
    hide Inv, Grounded, Others, OthersMove, Wait, WaitAll;
    PcHolds(s, a);
    CellsHold(s, a);
    IsGrounded(s);
    OthersKept(s, r, a);
    GroundedMoves(s, r, a);
  }

  lemma SettledGrounded(s: Sys, r: Sys, a: Agent, answer: bool)
    requires Inv(s) && a in s.agents && Enabled(s, s.agents[a], answer) && r == Go(s, a, answer)
    requires IsSettled(s.agents[a])
    ensures Grounded(r)
  {
    hide Inv, Grounded, Others, OthersMove, Wait, WaitAll;
    PcHolds(s, a);
    CellsHold(s, a);
    IsGrounded(s);
    OthersKept(s, r, a);
    GroundedMoves(s, r, a);
  }

  lemma NotifyGrounded(s: Sys, r: Sys, a: Agent, answer: bool)
    requires Inv(s) && a in s.agents && s.agents[a].Notifying? && r == Go(s, a, answer)
    ensures Grounded(r)
  {
    hide Inv, Grounded, Wait, WaitAll;
    PcHolds(s, a);
    CellsHold(s, a);
    IsGrounded(s);
    GroundedMoves(s, r, a);
  }

  // ----------------------------------------------------------------- wakeups

  lemma SomeoneThere(s: Sys, b: Agent)
    requires Inv(s) && b in s.agents
    ensures Overflowed(s.agents[b]) ==> s.overflow != 0
    ensures CountsAsHandleWaiter(s.agents[b]) ==> s.handleWaiters != 0
    ensures CountsAsAllWaiter(s.agents[b]) ==> s.allWaiters != 0
  {
    if Overflowed(s.agents[b]) { assert b in Who(s.agents, Overflowed); }
    if CountsAsHandleWaiter(s.agents[b]) { assert b in Who(s.agents, CountsAsHandleWaiter); }
    if CountsAsAllWaiter(s.agents[b]) { assert b in Who(s.agents, CountsAsAllWaiter); }
  }

  /** A completer that is on its way for a committed waiter stays on its way, until it notifies. */
  lemma CompleterStays(s: Sys, r: Sys, a: Agent, answer: bool, b: Agent)
    requires Inv(s) && a in s.agents && Enabled(s, s.agents[a], answer) && r == Go(s, a, answer)
    requires a != b && b in s.agents && Committed(s.agents[b])
    requires Reaches(s.agents[a], s.agents[b].task, s.agents[b].slot) && !s.agents[a].Notifying?
    ensures a in r.agents && Reaches(r.agents[a], s.agents[b].task, s.agents[b].slot)
    ensures r.agents[a].Notifying? ==> s.agents[b].Asleep?
  {
    hide Inv, Wait, WaitAll;
    PcHolds(s, a);
    PcHolds(s, b);
    CellsHold(s, a);
    SomeoneThere(s, b);
  }

  /** The same for a committed `wait_all` caller. */
  lemma ZeroerStays(s: Sys, r: Sys, a: Agent, answer: bool, b: Agent)
    requires Inv(s) && a in s.agents && Enabled(s, s.agents[a], answer) && r == Go(s, a, answer)
    requires a != b && b in s.agents && AllCommitted(s.agents[b])
    requires ReachesAll(s.agents[a]) && !s.agents[a].Notifying?
    ensures a in r.agents && ReachesAll(r.agents[a])
    ensures r.agents[a].Notifying? ==> s.agents[b].AllAsleep?
  {
    hide Inv, Wait, WaitAll;
    PcHolds(s, a);
    PcHolds(s, b);
    SomeoneThere(s, b);
  }

  lemma OtherPc(s: Sys, r: Sys, a: Agent, answer: bool, b: Agent)
    requires a in s.agents && Placed(s, s.agents[a]) && r == Go(s, a, answer) && a != b && b in s.agents
    ensures b in r.agents && r.agents[b] == if s.agents[a].Notifying? then Notified(s.agents[b]) else s.agents[b]
  {
  }

  /** What a step of `a` does to a task, and what it takes to be about to notify. */
  lemma Effect(s: Sys, r: Sys, a: Agent, answer: bool, t: TaskId)
    requires a in s.agents && Placed(s, s.agents[a]) && r == Go(s, a, answer) && t < |s.tasks|
    ensures |r.tasks| == |s.tasks| && r.tasks[t].completer == s.tasks[t].completer
    ensures r.tasks[t].complete && !s.tasks[t].complete ==>
      s.agents[a] == Finishing(t) && a in r.agents && r.agents[a] == Marked(t)
    ensures a in r.agents && r.agents[a].Notifying? ==> s.agents[a].Locked?
  {
  }

  /** Past its mark, a completer that was on its way for another agent's handle is on its way still. */
  lemma HandleWakeStays(s: Sys, r: Sys, a: Agent, answer: bool, b: Agent)
    requires Inv(s) && a in s.agents && Enabled(s, s.agents[a], answer) && r == Go(s, a, answer)
    requires a != b && b in s.agents && b in r.agents
    ensures HandleWakeOk(r, r.agents[b])
  {
    hide Inv, Go, Enabled;
    EnabledIsPlaced(s, s.agents[a], answer);
    PcHolds(s, a);
    PcHolds(s, b);
    WakeHolds(s, b);
    OtherPc(s, r, a, answer, b);
    var pc := s.agents[b];
    if Committed(pc) {
      var c := s.tasks[pc.task].completer;
      Effect(s, r, a, answer, pc.task);
      if c != a && c in s.agents { OtherPc(s, r, a, answer, c); }
      if s.tasks[pc.task].complete && c == a && !s.agents[a].Notifying? { CompleterStays(s, r, a, answer, b); }
    }
  }

  /** What a step of `a` does to the outstanding count. */
  lemma CountEffect(s: Sys, r: Sys, a: Agent, answer: bool)
    requires a in s.agents && Placed(s, s.agents[a]) && r == Go(s, a, answer)
    ensures if s.agents[a].Marked? then
        && r.outstanding == s.outstanding - 1
        && r.zeroing == (if s.outstanding == 1 then ByComplete(a) else s.zeroing)
        && a in r.agents && r.agents[a] == Subtracted(s.agents[a].task, s.outstanding - 1)
      else r.outstanding == s.outstanding && r.zeroing == s.zeroing
  {
  }

  lemma AllWakeStays(s: Sys, r: Sys, a: Agent, answer: bool, b: Agent)
    requires Inv(s) && a in s.agents && Enabled(s, s.agents[a], answer) && r == Go(s, a, answer)
    requires a != b && b in s.agents && b in r.agents
    ensures AllWakeOk(r, r.agents[b])
  {
    hide Inv, Go, Enabled;
    assert Placed(s, s.agents[a]) by { EnabledIsPlaced(s, s.agents[a], answer); }
    WakeHolds(s, b);
    OtherPc(s, r, a, answer, b);
    CountEffect(s, r, a, answer);
    if AllCommitted(s.agents[b]) && s.outstanding == 0 && s.zeroing.ByComplete? {
      var c := s.zeroing.agent;
      if c != a { OtherPc(s, r, a, answer, c); }
      else if !s.agents[a].Notifying? { ZeroerStays(s, r, a, answer, b); }
    }
    if |s.tasks| > 0 { Effect(s, r, a, answer, 0); }
  }

  lemma EnabledIsPlaced(s: Sys, pc: Pc, answer: bool)
    requires Enabled(s, pc, answer)
    ensures Placed(s, pc)
  {
  }

  lemma OwnHandleWake(s: Sys, r: Sys, a: Agent, answer: bool)
    requires Inv(s) && a in s.agents && Enabled(s, s.agents[a], answer) && r == Go(s, a, answer)
    requires a in r.agents
    ensures HandleWakeOk(r, r.agents[a])
  {
    hide Inv, AllWakeOk;
    PcHolds(s, a);
    WakeHolds(s, a);
  }

  /** Only `wait_all` commits to waiting for the count. */
  lemma NotAllCommitted(s: Sys, r: Sys, a: Agent, answer: bool)
    requires a in s.agents && Placed(s, s.agents[a]) && r == Go(s, a, answer) && !IsAllWaiter(s.agents[a])
    ensures a in r.agents ==> !AllCommitted(r.agents[a])
  {
    hide WaitAll;
  }

  lemma OwnAllWake(s: Sys, r: Sys, a: Agent, answer: bool)
    requires Inv(s) && a in s.agents && Enabled(s, s.agents[a], answer) && r == Go(s, a, answer)
    requires a in r.agents
    ensures AllWakeOk(r, r.agents[a])
  {
    hide Inv, HandleWakeOk, Complete, Wait;
    WakeHolds(s, a);
    if !IsAllWaiter(s.agents[a]) { NotAllCommitted(s, r, a, answer); }
  }

  lemma WakesKeep(s: Sys, r: Sys, a: Agent, answer: bool)
    requires Inv(s) && a in s.agents && Enabled(s, s.agents[a], answer) && r == Go(s, a, answer)
    ensures WakesOk(r)
  {
    hide Inv, Enabled, HandleWakeOk, AllWakeOk;
    forall b | b in r.agents ensures HandleWakeOk(r, r.agents[b]) && AllWakeOk(r, r.agents[b]) {
      if b == a {
        OwnHandleWake(s, r, a, answer);
        OwnAllWake(s, r, a, answer);
      } else {
        assert b in s.agents;
        HandleWakeStays(s, r, a, answer, b);
        AllWakeStays(s, r, a, answer, b);
      }
    }
  }

  lemma GoKeepsInv(s: Sys, r: Sys, a: Agent, answer: bool)
    requires Inv(s) && a in s.agents && Enabled(s, s.agents[a], answer) && r == Go(s, a, answer)
    ensures Inv(r)
  {
    assert CountersOk(r) && Grounded(r) && WakesOk(r) by {
      hide Inv, Go, CountersOk, Grounded, WakesOk;
      WakesKeep(s, r, a, answer);
      var pc := s.agents[a];
      assert Placed(s, pc);
      if pc.Notifying? {
        NotifyCounters(s, r, a, answer);
        NotifyGrounded(s, r, a, answer);
      } else {
        assert CountersOk(r) by { QuietCounters(s, r, a, answer); }
        if IsSettled(pc) {
          SettledGrounded(s, r, a, answer);
        } else if IsCompleter(pc) {
          SettlingGrounded(s, r, a, answer);
        } else if IsAllWaiter(pc) {
          if HoldsMutex(pc) { AllInsideGrounded(s, r, a, answer); } else { AllOutsideGrounded(s, r, a, answer); }
        } else if pc.Registering? || pc.Unregistering? {
          RegisteringGrounded(s, r, a, answer);
        } else if IsArriving(pc) {
          ArrivingGrounded(s, r, a, answer);
        } else {
          InsideGrounded(s, r, a, answer);
        }
      }
    }
  }

  // --------------------------------------- steps that are not an agent's next access

  /** The counting of a submission, and the settling of one that ran inline or threw. */
  lemma CountKeeps(s: Sys, r: Sys, a: Agent, action: Action)
    requires Inv(s) && Step(s, r, a, action) && (action.Counts? || action.Settles?)
    ensures Inv(r)
  {
    hide Inv, Who;
    assert Grounded(s) by { IsGrounded(s); }
    CountersHold(s);
    forall b | b in r.agents ensures HandleWakeOk(r, r.agents[b]) && AllWakeOk(r, r.agents[b]) {
      WakeHolds(s, b);
    }
    assert Grounded(r);
    PartsMakeInv(r);
  }

  lemma PartsMakeInv(s: Sys)
    requires CountersOk(s) && Grounded(s) && WakesOk(s)
    ensures Inv(s)
  {
  }

  lemma IssueKeeps(s: Sys, r: Sys, a: Agent, x: nat)
    requires Inv(s) && Step(s, r, a, Issues(x))
    ensures Inv(r)
  {
    hide Inv, Who;
    IsGrounded(s);
    CountersHold(s);
    assert r.tasks[..|s.tasks|] == s.tasks;
    forall b | b in r.agents ensures HandleWakeOk(r, r.agents[b]) && AllWakeOk(r, r.agents[b]) {
      WakeHolds(s, b);
      PcHolds(s, b);
    }
    PartsMakeInv(r);
  }

  lemma ReturnKeeps(s: Sys, r: Sys, a: Agent, t: TaskId)
    requires Inv(s) && Step(s, r, a, Returns(t))
    ensures Inv(r)
  {
    hide Inv, Who, CountersOk, Grounded;
    IsGrounded(s);
    CountersHold(s);
    TaskHolds(s, t);
    CellsHold(s, a);
    UnsettledOne(s.tasks, t, r.tasks[t]);
    CountersMove(s, r, a);
    OthersKept(s, r, a);
    GroundedMoves(s, r, a);
    forall b | b in r.agents ensures HandleWakeOk(r, r.agents[b]) && AllWakeOk(r, r.agents[b]) {
      if b != a { WakeHolds(s, b); PcHolds(s, b); }
    }
    PartsMakeInv(r);
  }

  /** A call of `wait` or `wait_all` begins. */
  lemma ArriveKeeps(s: Sys, r: Sys, a: Agent, action: Action)
    requires Inv(s) && Step(s, r, a, action) && (action.Waits? || action.WaitsAll?)
    ensures Inv(r)
  {
    hide Inv, Who, CountersOk, Grounded;
    if r != s {
      IsGrounded(s);
      CountersHold(s);
      CellsHold(s, a);
      if action.Waits? { TaskHolds(s, action.task); }
      CountersMove(s, r, a);
      OthersKept(s, r, a);
      GroundedMoves(s, r, a);
      forall b | b in r.agents ensures HandleWakeOk(r, r.agents[b]) && AllWakeOk(r, r.agents[b]) {
        if b != a { WakeHolds(s, b); PcHolds(s, b); }
      }
      PartsMakeInv(r);
    }
  }

  lemma StepKeepsInv(s: Sys, r: Sys, a: Agent, action: Action)
    requires Inv(s) && Step(s, r, a, action)
    ensures Inv(r)
  {
    hide Inv, Go, Enabled;
    match action
    case Counts => CountKeeps(s, r, a, action);
    case Settles => CountKeeps(s, r, a, action);
    case Issues(x) => IssueKeeps(s, r, a, x);
    case Returns(t) => ReturnKeeps(s, r, a, t);
    case Waits(_) => ArriveKeeps(s, r, a, action);
    case WaitsAll => ArriveKeeps(s, r, a, action);
    case Goes(answer) => GoKeepsInv(s, r, a, answer);
  }

  lemma InitInv(s: Sys)
    requires Init(s)
    ensures Inv(s)
  {
    assert Who(s.agents, Overflowed) == {};
    assert Who(s.agents, CountsAsHandleWaiter) == {};
    assert Who(s.agents, CountsAsAllWaiter) == {};
  }

  lemma {:induction false} RunKeepsInv(run: seq<Sys>, n: nat)
    requires Run(run) && n < |run|
    ensures Inv(run[n])
  {
    if n == 0 {
      InitInv(run[0]);
    } else {
      hide Inv, Step;
      RunKeepsInv(run, n - 1);
      assert Follows(run, n);
      var a: Agent, action: Action :| Step(run[n - 1], run[n], a, action);
      StepKeepsInv(run[n - 1], run[n], a, action);
    }
  }
}
