/** The guarantees of `wait` and `wait_all`, over every interleaving. */
module WaitingTheorems {
  import opened WaitingModel
  import opened WaitingInvariant
  import opened WaitingSteps

  // ------------------------------------------------------------ wait(handle)

  /**
   No external thread is stranded in `wait(handle)`: while it sleeps, not notified, on a
   handle that is complete, the thread that completed that very task is still inside
   `complete`, at a point from which it cannot return without `notify_all`.
   */
  lemma NoHandleWaiterIsStranded(run: seq<Sys>, n: nat, a: Agent)
    requires Run(run) && n < |run| && a in run[n].agents
    requires run[n].agents[a].Asleep? && !run[n].agents[a].notified
    requires run[n].agents[a].task < |run[n].tasks| && run[n].tasks[run[n].agents[a].task].complete
    ensures OnTheWay(run[n], run[n].agents[a].task, run[n].agents[a].slot)
  {
    hide Inv;
    RunKeepsInv(run, n);
    WakeHolds(run[n], a);
  }

  /** How many accesses a completer on its way has left, at most, before it notifies. */
  function Distance(pc: Pc): nat {
    match pc
    case Marked(_) => MAX_HANDLE_WAITER_SLOTS + 7
    case Subtracted(_, _) => MAX_HANDLE_WAITER_SLOTS + 6
    case SeenWaiters(_, _) => MAX_HANDLE_WAITER_SLOTS + 5
    case Scanning(_, _, j) => if j <= MAX_HANDLE_WAITER_SLOTS then MAX_HANDLE_WAITER_SLOTS + 4 - j else 4
    case Deciding(_, _, _) => 3
    case Locking(_) => 2
    case Locked(_) => 1
    case _ => 0
  }

  /** The next access of `c` is possible, or the completion mutex is with somebody else. */
  predicate OnlyMutexStops(s: Sys, c: Agent, answer: bool)
    requires c in s.agents
  {
    Enabled(s, s.agents[c], answer) || (s.agents[c].Locking? && s.mutex.HeldBy? && s.mutex.agent != c)
  }

  predicate WokenIn(r: Sys, a: Agent) {
    a in r.agents && (r.agents[a].Asleep? || r.agents[a].AllAsleep?) && r.agents[a].notified
  }

  predicate ComesNearer(s: Sys, r: Sys, c: Agent, a: Agent)
    requires c in s.agents && a in s.agents
  {
    && a in r.agents && r.agents[a] == s.agents[a]
    && c in r.agents && Distance(r.agents[c]) < Distance(s.agents[c])
  }

  /**
   "Still on its way" is a promise that is kept: each access of that completer either brings
   it nearer to `notify_all`, still on its way for the sleeper, or is the `notify_all` that
   wakes the sleeper; and nothing stops it but a completion mutex held by somebody else.
   */
  lemma CompleterArrives(run: seq<Sys>, n: nat, a: Agent, r: Sys, answer: bool)
    requires Run(run) && n < |run| && a in run[n].agents
    requires run[n].agents[a].Asleep? && !run[n].agents[a].notified
    requires run[n].agents[a].task < |run[n].tasks| && run[n].tasks[run[n].agents[a].task].complete
    ensures var s := run[n]; var t := s.agents[a].task; var c := s.tasks[t].completer;
      && OnTheWay(s, t, s.agents[a].slot)
      && OnlyMutexStops(s, c, answer)
      && (Step(s, r, c, Goes(answer)) ==>
            if s.agents[c].Notifying? then WokenIn(r, a) else ComesNearer(s, r, c, a) && OnTheWay(r, t, s.agents[a].slot))
  {
    hide Inv;
    RunKeepsInv(run, n);
    NoHandleWaiterIsStranded(run, n, a);
    var s := run[n];
    var c := s.tasks[s.agents[a].task].completer;
    PcHolds(s, c);
    CellsHold(s, c);
    if Step(s, r, c, Goes(answer)) && !s.agents[c].Notifying? {
      CompleterStays(s, r, c, answer, a);
      Nearer(s, r, c, answer);
    }
  }

  lemma Nearer(s: Sys, r: Sys, c: Agent, answer: bool)
    requires Inv(s) && c in s.agents && Step(s, r, c, Goes(answer)) && c in r.agents
    requires IsCompleter(s.agents[c]) && !s.agents[c].Finishing? && !s.agents[c].Notifying?
    ensures Distance(r.agents[c]) < Distance(s.agents[c])
    ensures forall b | b in s.agents && b != c :: b in r.agents && r.agents[b] == s.agents[b]
  {
    hide Inv;
    CellsHold(s, c);
    PcHolds(s, c);
  }

  /** How many accesses a mutex holder needs, at most, before it unlocks. */
  function HoldTime(pc: Pc): nat {
    match pc
    case Inside(_, _) => 3
    case Evaluating(_, _, _) => 2
    case AllInside => 2
    case _ => 1
  }

  /** The completion mutex is never kept: whoever holds it is there and free to move. */
  lemma MutexHolderIsFree(run: seq<Sys>, n: nat)
    requires Run(run) && n < |run| && run[n].mutex.HeldBy?
    ensures run[n].mutex.agent in run[n].agents
    ensures exists answer :: Enabled(run[n], run[n].agents[run[n].mutex.agent], answer)
  {
    hide Inv;
    RunKeepsInv(run, n);
    HolderIsFree(run[n]);
  }

  /** And each of the holder's moves unlocks it or comes nearer to. */
  lemma MutexIsReleased(run: seq<Sys>, n: nat, r: Sys, answer: bool)
    requires Run(run) && n < |run| && run[n].mutex.HeldBy?
    requires Step(run[n], r, run[n].mutex.agent, Goes(answer))
    ensures var d := run[n].mutex.agent;
      && d in run[n].agents
      && (r.mutex.Unlocked?
          || (r.mutex == run[n].mutex && d in r.agents && HoldTime(r.agents[d]) < HoldTime(run[n].agents[d])))
  {
    hide Inv, Go;
    RunKeepsInv(run, n);
    HolderIsThere(run[n]);
    HolderMoves(run[n], r, run[n].mutex.agent, answer);
  }

  lemma HolderIsFree(s: Sys)
    requires Inv(s) && s.mutex.HeldBy?
    ensures s.mutex.agent in s.agents && HoldsMutex(s.agents[s.mutex.agent])
    ensures exists answer :: Enabled(s, s.agents[s.mutex.agent], answer)
  {
    hide Inv, Go;
    HolderIsThere(s);
    PcHolds(s, s.mutex.agent);
    var pc := s.agents[s.mutex.agent];
    assert Enabled(s, pc, pc.Evaluating? && s.tasks[pc.task].done);
  }

  lemma HolderMoves(s: Sys, r: Sys, d: Agent, answer: bool)
    requires s.mutex == HeldBy(d) && d in s.agents && HoldsMutex(s.agents[d]) && Step(s, r, d, Goes(answer))
    ensures r.mutex.Unlocked? || (r.mutex == s.mutex && d in r.agents && HoldTime(r.agents[d]) < HoldTime(s.agents[d]))
  {
  }

  lemma HolderIsThere(s: Sys)
    requires Inv(s) && s.mutex.HeldBy?
    ensures s.mutex.agent in s.agents && HoldsMutex(s.agents[s.mutex.agent])
  {
  }

  /** `wait` returns only once the body of the awaited task has returned. */
  lemma WaitReturnsAfterTheBody(run: seq<Sys>, n: nat, a: Agent, answer: bool, r: Sys)
    requires Run(run) && n < |run| && a in run[n].agents
    requires !IsCompleter(run[n].agents[a]) && !IsAllWaiter(run[n].agents[a])
    requires Step(run[n], r, a, Goes(answer)) && a !in r.agents
    ensures run[n].agents[a].task < |run[n].tasks| && run[n].tasks[run[n].agents[a].task].done
  {
    hide Inv;
    RunKeepsInv(run, n);
    PcHolds(run[n], a);
  }

  /**
   Two waiters never share a table cell, each cell in use carries its waiter's index, and when
   no waiter has a place the table is empty and all three counts are zero.
   */
  lemma PlacesAreExclusive(run: seq<Sys>, n: nat, a: Agent, b: Agent)
    requires Run(run) && n < |run| && a in run[n].agents && b in run[n].agents && a != b
    requires HasPlace(run[n].agents[a]) && HasPlace(run[n].agents[b])
    requires run[n].agents[a].slot < MAX_HANDLE_WAITER_SLOTS
    ensures run[n].agents[a].slot != run[n].agents[b].slot
    ensures run[n].agents[a].task < |run[n].tasks| && |run[n].table| == MAX_HANDLE_WAITER_SLOTS
    ensures run[n].table[run[n].agents[a].slot] == Awaited(run[n].tasks[run[n].agents[a].task].index, a)
  {
    hide Inv;
    RunKeepsInv(run, n);
    PcHolds(run[n], a);
    PcHolds(run[n], b);
    CellsHold(run[n], a);
  }

  lemma NothingIsLeftBehind(run: seq<Sys>, n: nat)
    requires Run(run) && n < |run|
    requires forall a | a in run[n].agents :: !HasPlace(run[n].agents[a]) && !CountsAsAllWaiter(run[n].agents[a])
    ensures forall j | 0 <= j < |run[n].table| :: run[n].table[j] == Vacant
    ensures run[n].overflow == 0 && run[n].handleWaiters == 0 && run[n].allWaiters == 0
  {
    RunKeepsInv(run, n);
    var s := run[n];
    assert Who(s.agents, Overflowed) == {};
    assert Who(s.agents, CountsAsHandleWaiter) == {};
    assert Who(s.agents, CountsAsAllWaiter) == {};
  }

  // -------------------------------------------------------------- wait_all()

  /** A `wait_all` caller sleeps, or is bound to, and nobody has notified it although nothing is outstanding. */
  predicate Unnotified(s: Sys, a: Agent) {
    a in s.agents && AllCommitted(s.agents[a]) && s.outstanding == 0
  }

  /** `c` saw zero in `complete` and has its `notify_all` before it, at a time when `a` will be asleep. */
  predicate Rescues(s: Sys, a: Agent, c: Agent)
    requires a in s.agents
  {
    c in s.agents && ReachesAll(s.agents[c]) && NotTooLate(s, s.agents[a], c)
  }

  /** ... and no `complete` in progress is going to notify it on that account. */
  ghost predicate Stranded(s: Sys, a: Agent) {
    Unnotified(s, a) && forall c | c in s.agents :: !Rescues(s, a, c)
  }

  /**
   Whenever `complete` was what took the count to zero, every sleeping `wait_all` caller is
   notified: that very `complete` is still on its way. So a stranded caller means that the last
   decrement was one of those on the inline and throwing paths, which do not notify.
   */
  lemma StrandedOnlyByInlinePath(run: seq<Sys>, n: nat, a: Agent)
    requires Run(run) && n < |run| && Unnotified(run[n], a)
    ensures run[n].zeroing.ByComplete? ==> Rescues(run[n], a, run[n].zeroing.agent)
    ensures Stranded(run[n], a) ==> run[n].zeroing.ByInlinePath?
  {
    hide Inv;
    RunKeepsInv(run, n);
    WakeHolds(run[n], a);
  }

  /** One submission is left, `a` is committed to waiting for it, and nobody else is going to notify `a`. */
  ghost predicate WaitsForTheLast(s: Sys, a: Agent) {
    && a in s.agents && AllCommitted(s.agents[a]) && s.outstanding == 1
    && forall c | c in s.agents :: !Rescues(s, a, c)
  }

  /**
   Exactly which step strands a caller: an inline or throwing submission taking itself off the
   count as the last one, when no completion that saw zero is still on its way. No other access
   of any thread, in any reachable state, does.
   */
  lemma StrandingStep(run: seq<Sys>, n: nat, r: Sys, b: Agent, action: Action, a: Agent)
    requires Run(run) && n < |run| && Step(run[n], r, b, action)
    ensures Stranded(r, a) && !Stranded(run[n], a) <==> action.Settles? && WaitsForTheLast(run[n], a)
  {
    hide Inv, Stranded, WaitsForTheLast;
    RunKeepsInv(run, n);
    StepStrands(run[n], r, b, action, a);
  }

  lemma StepStrands(s: Sys, r: Sys, b: Agent, action: Action, a: Agent)
    requires Inv(s) && Step(s, r, b, action)
    ensures Stranded(r, a) && !Stranded(s, a) <==> action.Settles? && WaitsForTheLast(s, a)
  {
    hide Inv, Go;
    if action.Goes? {
      if Stranded(r, a) {
        if a == b { OwnStranding(s, r, a, action.answer); } else { OthersStranding(s, r, b, action.answer, a); }
      }
    } else {
      CountIsNatural(s);
      SpawnStrands(s, r, b, action, a);
    }
  }

  /** `outstanding_` never goes below zero. */
  lemma CountIsNatural(s: Sys)
    requires Inv(s)
    ensures s.outstanding >= 0
  {
  }

  lemma SpawnStrands(s: Sys, r: Sys, b: Agent, action: Action, a: Agent)
    requires Step(s, r, b, action) && !action.Goes? && s.outstanding >= 0
    ensures Stranded(r, a) && !Stranded(s, a) <==> action.Settles? && WaitsForTheLast(s, a)
  {
    assert forall c | c in s.agents :: c in r.agents && r.agents[c] == s.agents[c];
    if Stranded(r, a) && !action.Settles? {
      assert a in s.agents;
      forall c | c in s.agents ensures !Rescues(s, a, c) { assert !Rescues(r, a, c); }
    }
    if action.Settles? {
      assert forall c | c in s.agents && a in s.agents :: Rescues(r, a, c) == Rescues(s, a, c);
    }
  }

  /** A caller that looks at the count under the mutex does not strand itself. */
  lemma OwnStranding(s: Sys, r: Sys, a: Agent, answer: bool)
    requires Inv(s) && Step(s, r, a, Goes(answer)) && Stranded(r, a)
    ensures Stranded(s, a)
  {
    hide Inv, Complete, Wait;
    if !IsAllWaiter(s.agents[a]) { NotAllCommitted(s, r, a, answer); }
    forall c | c in s.agents ensures !Rescues(s, a, c) {
      if c != a {
        OtherPc(s, r, a, answer, c);
        assert !Rescues(r, a, c);
      }
    }
  }

  /** What a step of `b` makes of the count. */
  lemma CountAfter(s: Sys, r: Sys, b: Agent, answer: bool)
    requires Step(s, r, b, Goes(answer))
    ensures if s.agents[b].Marked? then b in r.agents && r.outstanding == s.outstanding - 1
                                        && r.agents[b] == Subtracted(s.agents[b].task, r.outstanding)
      else r.outstanding == s.outstanding
    ensures s.agents[b].Notifying? ==> r.agents == NotifyAll(s.agents) - {b}
  {
  }

  /** Nor does another thread strand it, in `complete` or anywhere else. */
  lemma OthersStranding(s: Sys, r: Sys, b: Agent, answer: bool, a: Agent)
    requires Inv(s) && Step(s, r, b, Goes(answer)) && a != b && Stranded(r, a)
    ensures Stranded(s, a)
  {
    hide Inv, Go;
    assert a in s.agents by { OtherWasThere(s, r, b, answer, a); }
    OtherPc(s, r, b, answer, a);
    CountAfter(s, r, b, answer);
    assert s.agents[b].Marked? ==> Rescues(r, a, b);
    assert AllCommitted(s.agents[a]) && r.agents[a] == s.agents[a];
    forall c | c in s.agents ensures !Rescues(s, a, c) {
      if c != b {
        OtherPc(s, r, b, answer, c);
        assert !Rescues(r, a, c);
      } else if Rescues(s, a, b) && !s.agents[b].Notifying? {
        ZeroerStays(s, r, b, answer, a);
      }
    }
  }

  lemma OtherWasThere(s: Sys, r: Sys, b: Agent, answer: bool, a: Agent)
    requires Step(s, r, b, Goes(answer)) && a != b && a in r.agents
    ensures a in s.agents
  {
    hide Go;
    if a !in s.agents { NobodyArrives(s, r, b, answer, a); }
  }

  /** State `i` is reached by an inline or throwing submission, whose agent makes no difference, taking itself off the count. */
  ghost predicate SettlesAt(run: seq<Sys>, i: nat)
    requires 0 < i < |run|
  {
    Step(run[i - 1], run[i], 0, Settles)
  }

  /** ... as the last one that `a` is waiting for. */
  ghost predicate StrandsAt(run: seq<Sys>, i: nat, a: Agent)
    requires 0 < i < |run|
  {
    SettlesAt(run, i) && WaitsForTheLast(run[i - 1], a)
  }

  /** The exact condition on runs: a caller is ever stranded if and only if such a step is the last one it waits for. */
  lemma StrandedExactlyWhen(run: seq<Sys>, a: Agent)
    requires Run(run)
    ensures (exists n :: 0 <= n < |run| && Stranded(run[n], a))
      <==> (exists i :: 0 < i < |run| && StrandsAt(run, i, a))
  {
    hide Run, Step, Stranded, WaitsForTheLast;
    if n :| 0 <= n < |run| && Stranded(run[n], a) {
      var i := FirstStranded(run, n, a);
    }
    if i :| 0 < i < |run| && StrandsAt(run, i, a) {
      StrandingStep(run, i - 1, run[i], 0, Settles, a);
    }
  }

  lemma {:induction false} FirstStranded(run: seq<Sys>, n: nat, a: Agent) returns (i: nat)
    requires Run(run) && n < |run| && Stranded(run[n], a)
    ensures 0 < i <= n && StrandsAt(run, i, a)
  {
    hide Go, WaitsForTheLast;
    assert n > 0;
    if Stranded(run[n - 1], a) {
      i := FirstStranded(run, n - 1, a);
    } else {
      i := n;
      assert Follows(run, n);
      var b: Agent, action: Action :| Step(run[n - 1], run[n], b, action);
      StrandingStep(run, n - 1, run[n], b, action, a);
    }
  }

  /** What can be checked beforehand: where no submission runs inline or throws, no `wait_all` caller is ever stranded. */
  lemma NobodyStrandedWithoutInlineRuns(run: seq<Sys>, n: nat, a: Agent)
    requires Run(run) && n < |run| && forall i | 0 < i < |run| :: !SettlesAt(run, i)
    ensures !Stranded(run[n], a)
  {
    hide Run, Stranded, SettlesAt, WaitsForTheLast;
    if Stranded(run[n], a) { var i := FirstStranded(run, n, a); }
  }

  /** And being on its way is again a promise that is kept. */
  lemma ZeroerArrives(run: seq<Sys>, n: nat, a: Agent, r: Sys, answer: bool)
    requires Run(run) && n < |run| && Unnotified(run[n], a) && run[n].agents[a].AllAsleep? && run[n].zeroing.ByComplete?
    ensures var s := run[n]; var c := s.zeroing.agent;
      && c in s.agents && ReachesAll(s.agents[c])
      && OnlyMutexStops(s, c, answer)
      && (Step(s, r, c, Goes(answer)) ==>
            if s.agents[c].Notifying? then WokenIn(r, a) else ComesNearer(s, r, c, a) && ReachesAll(r.agents[c]))
  {
    hide Inv;
    RunKeepsInv(run, n);
    StrandedOnlyByInlinePath(run, n, a);
    var s := run[n];
    var c := s.zeroing.agent;
    PcHolds(s, c);
    CellsHold(s, c);
    if Step(s, r, c, Goes(answer)) && !s.agents[c].Notifying? {
      ZeroerStays(s, r, c, answer, a);
      Nearer(s, r, c, answer);
    }
  }

  // A run that strands a caller. Task 0 has the pool's one slot when another submission is
  // counted, which therefore runs inline; agent 0 waits for both, agent 1 completes task 0, and
  // then the inline run ends.

  const FIRST := Task(0, false, false, false, 1)
  const ENDED := FIRST.(done := true, complete := true, settled := true)

  function EmptyTable(): seq<Cell> { seq(MAX_HANDLE_WAITER_SLOTS, i => Vacant) }

  function Idle(tasks: seq<Task>, counted: nat, outstanding: int): Sys {
    Sys(tasks, map[], EmptyTable(), 0, 0, 0, Unlocked, counted, outstanding, Never)
  }

  /** Agent 0 at `pc` in `wait_all`, while task 0 and the inline submission are outstanding. */
  function Arriving(pc: Pc): Sys {
    SetPc(Idle([FIRST], 1, 2), 0, pc).(allWaiters := if pc.AllArriving? then 0 else 1)
  }

  /** Agent 0 asleep, and agent 1 at `pc` in the completion of task 0. */
  function Ending(task: Task, outstanding: int, pc: Pc): Sys {
    SetPc(SetPc(Idle([task], 1, outstanding), 0, AllAsleep(false)), 1, pc).(allWaiters := 1)
  }

  function Stranding(i: nat): Sys {
    match i
    case 0 => Idle([], 0, 0)
    case 1 => Idle([], 1, 1)
    case 2 => Idle([FIRST], 0, 1)
    case 3 => Idle([FIRST], 1, 2)
    case 4 => Arriving(AllArriving)
    case 5 => Arriving(AllAtDoor)
    case 6 => Arriving(AllInside).(mutex := HeldBy(0))
    case 7 => Arriving(AllDozing).(mutex := HeldBy(0))
    case 8 => Arriving(AllAsleep(false))
    case 9 => Ending(FIRST.(done := true), 2, Finishing(0))
    case 10 => Ending(FIRST.(done := true, complete := true), 2, Marked(0))
    case 11 => Ending(ENDED, 1, Subtracted(0, 1))
    case 12 => Ending(ENDED, 1, Deciding(0, 1, false))
    case 13 => SetPc(Idle([ENDED], 1, 1), 0, AllAsleep(false)).(allWaiters := 1)
    case _ => SetPc(Idle([ENDED], 0, 0), 0, AllAsleep(false)).(allWaiters := 1, zeroing := ByInlinePath)
  }

  lemma StrandingBegins(i: nat)
    requires i < 4
    ensures Next(Stranding(i), Stranding(i + 1))
  {
    hide Go;
    if i == 1 { assert [] + [FIRST] == [FIRST]; }
    StepIsNext(Stranding(i), Stranding(i + 1), if i < 3 then 1 else 0, if i == 1 then Issues(0) else if i < 3 then Counts else WaitsAll);
  }

  lemma StrandingWaits(i: nat)
    requires 4 <= i < 8
    ensures Next(Stranding(i), Stranding(i + 1))
  {
    hide Complete, Wait, NotifyAll;
    StepIsNext(Stranding(i), Stranding(i + 1), 0, Goes(false));
  }

  lemma StrandingCompletes(i: nat)
    requires 8 <= i < 13
    ensures Next(Stranding(i), Stranding(i + 1))
  {
    hide WaitAll, Wait, NotifyAll;
    StepIsNext(Stranding(i), Stranding(i + 1), 1, if i == 8 then Returns(0) else Goes(false));
  }

  lemma StrandingEnds()
    ensures Step(Stranding(13), Stranding(14), 0, Settles)
  {
    hide Go;
  }

  /**
   Such a run exists, with an inline submission: it is counted while a task that has not run yet
   holds a slot, and ends last, leaving the caller asleep and nobody in the runtime to wake it.
   */
  lemma InlinePathStrands() returns (run: seq<Sys>)
    ensures Run(run) && |run| == 15 && Stranded(run[14], 0) && SettlesAt(run, 14)
    ensures |run[3].tasks| == 1 && !run[3].tasks[0].done && run[3].counted == 1
    ensures run[14].agents == map[0 := AllAsleep(false)] && run[14].counted == 0
  {
    hide Stranding, Next, Stranded, Step;
    run := seq(15, i requires 0 <= i < 15 => Stranding(i));
    forall i | 0 < i < 15 ensures Follows(run, i) { StrandingGoesOn(i - 1); }
    StrandingStarts();
    StrandingIsSo();
    StrandingEnds();
    assert run[13] == Stranding(13) && run[14] == Stranding(14) && run[3] == Stranding(3) && run[0] == Stranding(0);
  }

  lemma StrandingStarts()
    ensures Init(Stranding(0))
  {
  }

  lemma StrandingGoesOn(i: nat)
    requires i < 14
    ensures Next(Stranding(i), Stranding(i + 1))
  {
    hide Stranding, Next;
    if i < 4 { StrandingBegins(i); }
    else if i < 8 { StrandingWaits(i); }
    else if i < 13 { StrandingCompletes(i); }
    else { StrandingEnds(); StepIsNext(Stranding(13), Stranding(14), 0, Settles); }
  }

  lemma StrandingIsSo()
    ensures Stranded(Stranding(14), 0)
    ensures |Stranding(3).tasks| == 1 && !Stranding(3).tasks[0].done && Stranding(3).counted == 1
    ensures Stranding(14).agents == map[0 := AllAsleep(false)] && Stranding(14).counted == 0
  {
  }

  lemma StepIsNext(s: Sys, r: Sys, a: Agent, action: Action)
    requires Step(s, r, a, action)
    ensures Next(s, r)
  {
  }

  lemma {:induction false} SettledMeansDone(tasks: seq<Task>, t: TaskId)
    requires TasksOk(tasks) && CountUnsettled(tasks) == 0 && t < |tasks|
    ensures tasks[t].done
  {
    if t < |tasks| - 1 { SettledMeansDone(tasks[..|tasks| - 1], t); } else { assert TaskOk(tasks[t]); }
  }

  /** `outstanding_` is never negative, and at zero every counted submission is over and every body has returned. */
  lemma IdleMeansAllDone(run: seq<Sys>, n: nat)
    requires Run(run) && n < |run|
    ensures run[n].outstanding >= 0
    ensures run[n].outstanding == 0 ==>
      run[n].counted == 0 && forall t | 0 <= t < |run[n].tasks| :: run[n].tasks[t].done
  {
    RunKeepsInv(run, n);
    if run[n].outstanding == 0 {
      forall t | 0 <= t < |run[n].tasks| ensures run[n].tasks[t].done { SettledMeansDone(run[n].tasks, t); }
    }
  }

  predicate AllLeaving(s: Sys, a: Agent) { a in s.agents && (s.agents[a].AllSatisfied? || s.agents[a].AllDeparting?) }

  /** `wait_all` returns only after a moment, within the call, at which nothing was outstanding. */
  lemma {:induction false} WaitAllSawIdle(run: seq<Sys>, n: nat, a: Agent) returns (m: nat)
    requires Run(run) && n < |run| && AllLeaving(run[n], a)
    ensures m < n && a in run[m].agents && run[m].agents[a] == AllInside && run[m].outstanding == 0
    ensures forall k | m < k <= n :: AllLeaving(run[k], a)
  {
    hide Step;
    assert Follows(run, n);
    var b: Agent, action: Action :| Step(run[n - 1], run[n], b, action);
    if AllLeaving(run[n - 1], a) {
      m := WaitAllSawIdle(run, n - 1, a);
    } else {
      m := n - 1;
      LeavingBegins(run[m], run[n], b, action, a);
    }
  }

  lemma LeavingBegins(s: Sys, r: Sys, b: Agent, action: Action, a: Agent)
    requires Step(s, r, b, action) && AllLeaving(r, a) && !AllLeaving(s, a)
    ensures a in s.agents && s.agents[a] == AllInside && s.outstanding == 0
  {
    hide Go;
    if action.Goes? {
      if b == a { OwnLeaving(s, r, a, action.answer); }
      else {
        if a in s.agents { OtherPc(s, r, b, action.answer, a); } else { NobodyArrives(s, r, b, action.answer, a); }
      }
    }
  }

  lemma OwnLeaving(s: Sys, r: Sys, a: Agent, answer: bool)
    requires Step(s, r, a, Goes(answer)) && AllLeaving(r, a) && !AllLeaving(s, a)
    ensures s.agents[a] == AllInside && s.outstanding == 0
  {
  }

  lemma NobodyArrives(s: Sys, r: Sys, b: Agent, answer: bool, a: Agent)
    requires b in s.agents && Placed(s, s.agents[b]) && r == Go(s, b, answer) && a !in s.agents
    ensures a !in r.agents
  {
  }

  // --------------------------------------------------------------- calls return

  /** How many accesses of its own a call has left, at most, once what it waits for has happened. */
  function AccessesLeft(pc: Pc): nat {
    match pc
    case Finishing(_) => MAX_HANDLE_WAITER_SLOTS + 9
    case Checking(_, _) => MAX_HANDLE_WAITER_SLOTS + 12
    case Registering(_, i) => if i <= MAX_HANDLE_WAITER_SLOTS then MAX_HANDLE_WAITER_SLOTS + 11 - i else 11
    case Registered(_, _) => 10
    case Evaluating(_, _, sure) => if sure then 4 else 9
    case Dozing(_, _) => 8
    case Asleep(_, _, _) => 7
    case AtDoor(_, _) => 6
    case Inside(_, _) => 5
    case Satisfied(_, _) => 3
    case Departing(_, _) => 2
    case Unregistering(_, _) => 1
    case AllArriving => 7
    case AllDozing => 6
    case AllAsleep(_) => 5
    case AllAtDoor => 4
    case AllInside => 3
    case AllSatisfied => 2
    case AllDeparting => 1
    case _ => Distance(pc) + 1
  }

  predicate IsHandleWaiter(pc: Pc) { !IsCompleter(pc) && !IsAllWaiter(pc) }

  /** What the call of `a` waits for has happened; `complete` waits for nothing. */
  predicate Returning(s: Sys, a: Agent) {
    && a in s.agents
    && var pc := s.agents[a];
       && (IsHandleWaiter(pc) ==> pc.task < |s.tasks| && s.tasks[pc.task].complete)
       && (IsAllWaiter(pc) ==> s.outstanding == 0 || AllLeaving(s, a))
  }

  /**
   `wait`, `wait_all` and `complete` return: from the moment the handle is complete, or nothing is
   outstanding, or for `complete` from the start, each access of the calling thread is its last or
   leaves fewer to make.
   */
  lemma CallReturns(run: seq<Sys>, n: nat, a: Agent, r: Sys, answer: bool)
    requires Run(run) && n < |run| && Returning(run[n], a) && Step(run[n], r, a, Goes(answer))
    ensures a in r.agents ==> AccessesLeft(r.agents[a]) < AccessesLeft(run[n].agents[a]) && Returning(r, a)
  {
    hide Inv;
    RunKeepsInv(run, n);
    var s := run[n];
    PcHolds(s, a);
    CellsHold(s, a);
    if IsCompleter(s.agents[a]) { CompleteReturns(s, r, a, answer); }
    else if IsAllWaiter(s.agents[a]) { WaitAllReturns(s, r, a, answer); }
    else { WaitReturns(s, r, a, answer); }
  }

  lemma CompleteReturns(s: Sys, r: Sys, a: Agent, answer: bool)
    requires Step(s, r, a, Goes(answer)) && IsCompleter(s.agents[a]) && |s.table| == MAX_HANDLE_WAITER_SLOTS
    ensures a in r.agents ==> AccessesLeft(r.agents[a]) < AccessesLeft(s.agents[a]) && Returning(r, a)
  {
    hide Wait, WaitAll;
  }

  lemma WaitReturns(s: Sys, r: Sys, a: Agent, answer: bool)
    requires Step(s, r, a, Goes(answer)) && Returning(s, a) && IsHandleWaiter(s.agents[a]) && |s.table| == MAX_HANDLE_WAITER_SLOTS
    ensures a in r.agents ==> AccessesLeft(r.agents[a]) < AccessesLeft(s.agents[a]) && Returning(r, a)
  {
    hide Complete, WaitAll;
  }

  lemma WaitAllReturns(s: Sys, r: Sys, a: Agent, answer: bool)
    requires Step(s, r, a, Goes(answer)) && Returning(s, a) && IsAllWaiter(s.agents[a])
    ensures a in r.agents ==> AccessesLeft(r.agents[a]) < AccessesLeft(s.agents[a]) && Returning(r, a)
  {
    hide Complete, Wait;
  }

  /** Unless it sleeps un-notified, nothing stops it from making that access but the mutex held by somebody else. */
  lemma CallGoesOn(run: seq<Sys>, n: nat, a: Agent)
    requires Run(run) && n < |run| && a in run[n].agents
    ensures (exists answer :: Enabled(run[n], run[n].agents[a], answer))
      || ((run[n].agents[a].Locking? || run[n].agents[a].AtDoor? || run[n].agents[a].AllAtDoor?) && run[n].mutex.HeldBy?)
  {
    hide Inv;
    RunKeepsInv(run, n);
    var s := run[n];
    PcHolds(s, a);
    var pc := s.agents[a];
    if !((pc.Locking? || pc.AtDoor? || pc.AllAtDoor?) && s.mutex.HeldBy?) {
      assert Enabled(s, pc, (pc.Checking? || pc.Evaluating?) && s.tasks[pc.task].done);
    }
  }

  /** And no access of another thread sets it back, save that new work may be submitted under a `wait_all` that has not seen zero yet. */
  lemma OthersDoNotDelay(run: seq<Sys>, n: nat, a: Agent, r: Sys, b: Agent, action: Action)
    requires Run(run) && n < |run| && Returning(run[n], a) && Step(run[n], r, b, action) && b != a
    ensures a in r.agents && AccessesLeft(r.agents[a]) == AccessesLeft(run[n].agents[a])
    ensures Returning(r, a) || (IsAllWaiter(run[n].agents[a]) && r.outstanding != 0)
  {
    hide Inv, Go;
    var s := run[n];
    RunKeepsInv(run, n);
    if action.Goes? {
      OtherPc(s, r, b, action.answer, a);
      forall t | 0 <= t < |s.tasks| && s.tasks[t].complete ensures t < |r.tasks| && r.tasks[t].complete {
        StaysComplete(s, r, b, action.answer, t);
      }
    }
  }

  lemma StaysComplete(s: Sys, r: Sys, b: Agent, answer: bool, t: TaskId)
    requires Step(s, r, b, Goes(answer)) && t < |s.tasks| && s.tasks[t].complete
    ensures t < |r.tasks| && r.tasks[t].complete
  {
  }

  predicate InUse(s: Sys, j: nat) {
    && j < |s.table| && s.table[j].Awaited? && s.table[j].owner in s.agents
    && HasPlace(s.agents[s.table[j].owner]) && s.agents[s.table[j].owner].slot == j
  }

  /** A waiter passes over a cell of the table, on its way to the overflow count, only if another waiter is using it. */
  lemma CellPassedOverIsInUse(run: seq<Sys>, n: nat, a: Agent, r: Sys, answer: bool)
    requires Run(run) && n < |run| && Step(run[n], r, a, Goes(answer)) && run[n].agents[a].Registering?
    requires run[n].agents[a].next < MAX_HANDLE_WAITER_SLOTS && a in r.agents && r.agents[a].Registering?
    ensures r.agents[a].next == run[n].agents[a].next + 1 && InUse(run[n], run[n].agents[a].next)
  {
    hide Inv;
    RunKeepsInv(run, n);
    CellsHold(run[n], a);
    if run[n].table[run[n].agents[a].next].Awaited? { CellsHold(run[n], run[n].table[run[n].agents[a].next].owner); }
  }

  // ------------------------------------------------------- calls that need nobody

  /** With nobody waiting, `complete` is three accesses from its end once it has stored Completed, and touches neither the mutex nor anybody else. */
  lemma NobodyWaitsNobodyWoken(s: Sys, a: Agent) returns (r: Sys)
    requires a in s.agents && s.agents[a].Marked? && Placed(s, s.agents[a]) && s.handleWaiters == 0 && s.allWaiters == 0
    ensures r.agents == s.agents - {a} && r.mutex == s.mutex && r.table == s.table
    ensures exists m, k :: Step(s, m, a, Goes(false)) && Step(m, k, a, Goes(false)) && Step(k, r, a, Goes(false))
  {
    hide Wait, WaitAll, NotifyAll;
    var m := Go(s, a, false);
    var k := Go(m, a, false);
    r := Go(k, a, false);
    assert Step(s, m, a, Goes(false)) && Step(m, k, a, Goes(false)) && Step(k, r, a, Goes(false));
    assert r.agents == s.agents - {a};
  }

  /** A thread that is in no call can wait for any handle, and the body of any task can return to it. */
  lemma IdleThreadCanCall(s: Sys, a: Agent, t: TaskId) returns (waiting: Sys, completing: Sys)
    requires a !in s.agents && t < |s.tasks|
    ensures Step(s, waiting, a, Waits(t))
    ensures !s.tasks[t].done ==> Step(s, completing, a, Returns(t))
    ensures s.outstanding != 0 ==> exists all :: Step(s, all, a, WaitsAll) && a in all.agents
  {
    waiting := SetPc(s, a, Checking(t, s.tasks[t].complete));
    completing := SetPc(SetTask(s, t, s.tasks[t].(done := true, completer := a)), a, Finishing(t));
    assert Step(s, if s.outstanding == 0 then s else SetPc(s, a, AllArriving), a, WaitsAll);
  }
}
