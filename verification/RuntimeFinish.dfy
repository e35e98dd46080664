/**
 Everything that is submitted can be finished: from every reachable state there is a way on to
 a state in which nothing is outstanding. The earliest unsettled task waits for nobody, so the
 agent that has it, or any idle agent if it is ready, can take it to its end.
 */
module RuntimeFinish {
  import opened Basics
  import opened RuntimeModel
  import opened RuntimeInvariant
  import opened RuntimeFrames
  import opened RuntimeLinks
  import opened RuntimeSteps
  import opened RuntimeMoves
  import opened RuntimeTheorems
  import opened RuntimeProgress

  // ------------------------------------------------------------ how far it is

  /** How many accesses an agent that is completing `list` has left, at most. */
  function ListLeft(pc: Pc): int {
    match pc
    case Drained(_, list) => 5 * |list| + 6
    case Marked(_, list) => 5 * |list| + 5
    case Bumped(_, _, list) => 5 * |list| + 4
    case Closed(_, _, list) => 5 * |list| + 3
    case Freed(_, _, list) => 5 * |list| + 2
    case Notifying(_, list) => 5 * |list| + 1
    case Decrementing(_, list) => 5 * |list|
    case DependentZeroed(_, list) => 5 * |list| - 1
    case DependentEnqueuing(_, list) => 5 * |list| - 2
    case _ => 0
  }

  /** Before that, for a task with `k` dependencies. */
  function EarlyLeft(pc: Pc, k: nat): int {
    match pc
    case Taken(_, _, _) => 3 * k + 19
    case Opened(_, _, _) => 3 * k + 18
    case Made(_, _, _) => 3 * k + 17
    case MadeWaiting(_, _) => 3 * k + 16
    case Scanning(_, _, i) => 3 * (k - i) + 15
    case Resolved(_, _, i) => 3 * (k - i) + 14
    case Unregistered(_, _, i) => 3 * (k - i) + 13
    case Zeroed(_, _) => 12
    case DependentZeroed(_, _) => 12
    case Enqueuing(_) => 11
    case DependentEnqueuing(_, _) => 11
    case Claimed(_) => 9
    case Running(_) => 8
    case Returned(_) => 7
    case _ => 0
  }

  /** On the inline path, and where construction threw. */
  function InlineLeft(pc: Pc, k: nat): int {
    match pc
    case Exhausted(_, _) => 4 * k + 4
    case InlineWaiting(_, j) => 4 * (k - j) + 3
    case AskGet(_, asker) => if asker.InlineWait? then 4 * (k - asker.position) + 2 else 0
    case AskState(_, asker) => if asker.InlineWait? then 4 * (k - asker.position) + 1 else 0
    case AskGeneration(_, asker, _) => if asker.InlineWait? then 4 * (k - asker.position) else 0
    case InlineRunning(_) => 2
    case Undoing(_, _) => 5
    case UndoBumped(_, _) => 4
    case UndoClosed(_, _) => 3
    case UndoFreed(_, _) => 2
    case Settling(_) => 1
    case _ => 0
  }

  /** How many accesses task `t` is from its end, if its dependencies are settled and `pc` is where its agent is. */
  function Left(t: Task, pc: Pc): int {
    match t.phase
    case Completing(_) => ListLeft(pc)
    case Releasing(_) => ListLeft(pc)
    case InlineBusy(_) => InlineLeft(pc, |t.deps|)
    case InlineFinished(_) => InlineLeft(pc, |t.deps|)
    case Dropping(_) => InlineLeft(pc, |t.deps|)
    case Counting(_) => if pc.Counted? then 4 * |t.deps| + 5 else 5 * |t.dependents| + EarlyLeft(pc, |t.deps|)
    case Building(_) => if pc.Undoing? then InlineLeft(pc, |t.deps|) else 5 * |t.dependents| + EarlyLeft(pc, |t.deps|)
    case Ready => 5 * |t.dependents| + 10
    case _ => 5 * |t.dependents| + EarlyLeft(pc, |t.deps|)
  }

  predicate Settled(s: Sys, id: TaskId) { id < |s.tasks| && !Unsettled(s.tasks[id]) }

  predicate DepsSettled(s: Sys, id: TaskId)
    requires id < |s.tasks|
  {
    forall i | 0 <= i < |s.tasks[id].deps| :: Settled(s, s.tasks[id].deps[i])
  }

  /** Agent `a` has task `m` in hand. */
  predicate Has(s: Sys, a: Agent, m: TaskId) {
    m < |s.tasks| && Staffed(s.tasks[m].phase) && s.tasks[m].phase.agent == a && a in s.agents
  }

  /** The step settles `m`, or brings it nearer to its end, and it is still `a` that has it unless it is ready. */
  predicate Nearer(s: Sys, r: Sys, a: Agent, m: TaskId)
    requires Has(s, a, m)
  {
    && m < |r.tasks|
    && (Unsettled(r.tasks[m]) ==>
          && (r.tasks[m].phase.Ready? || Has(r, a, m))
          && 0 <= Left(r.tasks[m], if a in r.agents then r.agents[a] else s.agents[a]) < Left(s.tasks[m], s.agents[a]))
  }

  /** No task comes or goes, and none that is settled changes. */
  predicate Kept(s: Sys, r: Sys) {
    && |r.tasks| == |s.tasks| && r.outstanding <= s.outstanding
    && forall id | 0 <= id < |s.tasks| ::
         r.tasks[id].deps == s.tasks[id].deps && (!Unsettled(s.tasks[id]) ==> !Unsettled(r.tasks[id]))
  }

  // ------------------------------------------------ what a settled task looks like

  lemma SettledIsGone(s: Sys, d: TaskId)
    requires Inv(s) && Settled(s, d)
    ensures !Resolves(s, d) && s.tasks[d].dependents == []
  {
    hide Inv;
    RecordHolds(s, d);
  }

  /** With its dependencies settled a task has no attached edge. */
  lemma NothingAttached(s: Sys, m: TaskId, i: nat)
    requires Inv(s) && m < |s.tasks| && DepsSettled(s, m) && i < |s.tasks[m].edges|
    ensures s.tasks[m].edges[i] != Attached
  {
    hide Inv;
    EdgeHolds(s, m, i);
    SettledIsGone(s, Dep(s.tasks, m, i));
  }

  // ------------------------------------------------------------- nobody holds it up

  /** Agent `a` is at work on `m`, whose dependencies are settled, and makes its next access. */
  ghost predicate Drives(s: Sys, r: Sys, a: Agent, m: TaskId) {
    Go(s, r, a) && Has(s, a, m) && WorksOn(s.agents[a], m, s.tasks[m].phase) && DepsSettled(s, m)
  }

  lemma OpeningNears(s: Sys, r: Sys, a: Agent, m: TaskId)
    requires Inv(s) && Drives(s, r, a, m) && IsOpening(s.agents[a])
    ensures Nearer(s, r, a, m)
  {
    hide Inv, ListLeft, DepsSettled;
    PcHolds(s, a);
  }

  lemma OpeningKeepsTasks(s: Sys, r: Sys, a: Agent)
    requires Inv(s) && Go(s, r, a) && IsOpening(s.agents[a])
    ensures Kept(s, r)
  {
    hide Inv;
    PcHolds(s, a);
  }

  lemma ScanningNears(s: Sys, r: Sys, a: Agent, m: TaskId)
    requires Inv(s) && Drives(s, r, a, m) && s.agents[a].Scanning?
    ensures Nearer(s, r, a, m)
  {
    hide Inv;
    PcHolds(s, a);
    RecordHolds(s, m);
    var Scanning(id, x, i) := s.agents[a];
    if i == |s.tasks[m].deps| {
      forall j | 0 <= j < |s.tasks[m].edges| ensures s.tasks[m].edges[j] == Released { NothingAttached(s, m, j); }
      OpenZero(s.tasks[m].edges);
      assert s.slots[x].pending == 1;
    }
  }

  lemma ScanningKeepsTasks(s: Sys, r: Sys, a: Agent)
    requires Inv(s) && Go(s, r, a) && s.agents[a].Scanning?
    ensures Kept(s, r)
  {
    hide Inv;
    PcHolds(s, a);
  }

  lemma ResolvedNears(s: Sys, r: Sys, a: Agent, m: TaskId)
    requires Inv(s) && Drives(s, r, a, m) && s.agents[a].Resolved?
    ensures Nearer(s, r, a, m)
  {
    hide Inv;
    PcHolds(s, a);
    RecordHolds(s, m);
    SettledIsGone(s, Dep(s.tasks, m, s.agents[a].next));
  }

  lemma ResolvedKeepsTasks(s: Sys, r: Sys, a: Agent)
    requires Inv(s) && Go(s, r, a) && s.agents[a].Resolved?
    ensures Kept(s, r)
  {
    hide Inv;
    PcHolds(s, a);
  }

  lemma SatisfiedNears(s: Sys, r: Sys, a: Agent, m: TaskId)
    requires Inv(s) && Drives(s, r, a, m) && s.agents[a].Unregistered?
    ensures Nearer(s, r, a, m)
  {
    hide Inv;
    PcHolds(s, a);
    RecordHolds(s, m);
  }

  lemma SatisfiedKeepsTasks(s: Sys, r: Sys, a: Agent)
    requires Inv(s) && Go(s, r, a) && s.agents[a].Unregistered?
    ensures Kept(s, r)
  {
    hide Inv;
    PcHolds(s, a);
  }

  lemma EnqueuingNears(s: Sys, r: Sys, a: Agent, m: TaskId)
    requires Inv(s) && Drives(s, r, a, m) && (s.agents[a].Zeroed? || s.agents[a].Enqueuing?)
    ensures Nearer(s, r, a, m)
  {
    hide Inv;
    PcHolds(s, a);
  }

  lemma EnqueuingKeepsTasks(s: Sys, r: Sys, a: Agent)
    requires Inv(s) && Go(s, r, a) && (s.agents[a].Zeroed? || s.agents[a].Enqueuing?)
    ensures Kept(s, r)
  {
    hide Inv;
    PcHolds(s, a);
  }

  lemma SettlingNears(s: Sys, r: Sys, a: Agent, m: TaskId)
    requires Inv(s) && Drives(s, r, a, m) && s.agents[a].Settling?
    ensures Nearer(s, r, a, m)
  {
    hide Inv;
    PcHolds(s, a);
  }

  lemma SettlingKeepsTasks(s: Sys, r: Sys, a: Agent)
    requires Inv(s) && Go(s, r, a) && s.agents[a].Settling?
    ensures Kept(s, r)
  {
    hide Inv;
    PcHolds(s, a);
  }

  lemma ReturningNears(s: Sys, r: Sys, a: Agent, m: TaskId)
    requires Inv(s) && Drives(s, r, a, m) && HasSlot(s.agents[a])
    ensures Nearer(s, r, a, m)
  {
    hide Inv;
    PcHolds(s, a);
  }

  lemma ReturningKeepsTasks(s: Sys, r: Sys, a: Agent)
    requires Inv(s) && Go(s, r, a) && HasSlot(s.agents[a])
    ensures Kept(s, r)
  {
    hide Inv;
    PcHolds(s, a);
  }

  lemma ExecutingNears(s: Sys, r: Sys, a: Agent, m: TaskId)
    requires Inv(s) && Drives(s, r, a, m) && (s.agents[a].Claimed? || s.agents[a].Running?)
    ensures Nearer(s, r, a, m)
  {
    hide Inv, InlineLeft, DepsSettled;
    PcHolds(s, a);
  }

  lemma DrainingNears(s: Sys, r: Sys, a: Agent, m: TaskId)
    requires Inv(s) && Drives(s, r, a, m) && s.agents[a].Returned?
    ensures Nearer(s, r, a, m)
  {
    hide Inv, InlineLeft, DepsSettled, Shape;
    PcHolds(s, a);
    RecordHolds(s, m);
  }

  lemma ExecutingKeepsTasks(s: Sys, r: Sys, a: Agent)
    requires Inv(s) && Go(s, r, a) && (s.agents[a].Claimed? || s.agents[a].Running? || s.agents[a].Returned?)
    ensures Kept(s, r)
  {
    hide Inv;
    PcHolds(s, a);
  }

  lemma CompletingNears(s: Sys, r: Sys, a: Agent, m: TaskId)
    requires Inv(s) && Drives(s, r, a, m) && (s.agents[a].Drained? || s.agents[a].Marked? || s.agents[a].Notifying?)
    ensures Nearer(s, r, a, m)
  {
    hide Inv;
    PcHolds(s, a);
  }

  lemma CompletingKeepsTasks(s: Sys, r: Sys, a: Agent)
    requires Inv(s) && Go(s, r, a) && (s.agents[a].Drained? || s.agents[a].Marked? || s.agents[a].Notifying?)
    ensures Kept(s, r)
  {
    hide Inv;
    PcHolds(s, a);
  }

  lemma DecrementingNears(s: Sys, r: Sys, a: Agent, m: TaskId)
    requires Inv(s) && Drives(s, r, a, m) && s.agents[a].Decrementing?
    ensures Nearer(s, r, a, m)
  {
    hide Inv;
    PcHolds(s, a);
    AttachedIsResident(s, s.agents[a].task, s.agents[a].list[0]);
  }

  lemma DecrementingKeepsTasks(s: Sys, r: Sys, a: Agent)
    requires Inv(s) && Go(s, r, a) && s.agents[a].Decrementing?
    ensures Kept(s, r)
  {
    hide Inv;
    PcHolds(s, a);
    AttachedIsResident(s, s.agents[a].task, s.agents[a].list[0]);
  }

  lemma DependentNears(s: Sys, r: Sys, a: Agent, m: TaskId)
    requires Inv(s) && Drives(s, r, a, m) && (s.agents[a].DependentZeroed? || s.agents[a].DependentEnqueuing?)
    ensures Nearer(s, r, a, m)
  {
    hide Inv;
    PcHolds(s, a);
  }

  lemma DependentKeepsTasks(s: Sys, r: Sys, a: Agent)
    requires Inv(s) && Go(s, r, a) && (s.agents[a].DependentZeroed? || s.agents[a].DependentEnqueuing?)
    ensures Kept(s, r)
  {
    hide Inv;
    PcHolds(s, a);
  }

  lemma InlineNears(s: Sys, r: Sys, a: Agent, m: TaskId)
    requires Inv(s) && Drives(s, r, a, m)
    requires s.agents[a].Exhausted? || s.agents[a].InlineWaiting? || s.agents[a].InlineRunning?
    ensures Nearer(s, r, a, m)
  {
    hide Inv;
    PcHolds(s, a);
  }

  lemma InlineKeepsTasks(s: Sys, r: Sys, a: Agent)
    requires Inv(s) && Go(s, r, a)
    requires s.agents[a].Exhausted? || s.agents[a].InlineWaiting? || s.agents[a].InlineRunning?
    ensures Kept(s, r)
  {
    hide Inv;
    PcHolds(s, a);
  }

  lemma AskingNears(s: Sys, r: Sys, a: Agent, m: TaskId)
    requires Inv(s) && Drives(s, r, a, m)
    requires s.agents[a].AskGet? || s.agents[a].AskState? || s.agents[a].AskGeneration? || s.agents[a].Answered?
    ensures Nearer(s, r, a, m)
  {
    hide Inv;
    PcHolds(s, a);
    if !s.agents[a].Answered? { SettledIsGone(s, s.agents[a].about); }
  }

  lemma AskingKeepsTasks(s: Sys, r: Sys, a: Agent)
    requires Inv(s) && Go(s, r, a)
    requires s.agents[a].AskGet? || s.agents[a].AskState? || s.agents[a].AskGeneration? || s.agents[a].Answered?
    ensures Kept(s, r)
  {
    hide Inv;
  }

  lemma GoNears(s: Sys, r: Sys, a: Agent, m: TaskId)
    requires Inv(s) && Drives(s, r, a, m)
    ensures Nearer(s, r, a, m)
  {
    hide Inv, Nearer, Go, DepsSettled, WorksOn;
    var pc := s.agents[a];
    assert !pc.Counted? by { CountedWaits(s, r, a); }
    if IsOpening(pc) { OpeningNears(s, r, a, m); }
    else if pc.Scanning? { ScanningNears(s, r, a, m); }
    else if pc.Resolved? { ResolvedNears(s, r, a, m); }
    else if pc.Unregistered? { SatisfiedNears(s, r, a, m); }
    else if pc.Zeroed? || pc.Enqueuing? { EnqueuingNears(s, r, a, m); }
    else if pc.Settling? { SettlingNears(s, r, a, m); }
    else if HasSlot(pc) { ReturningNears(s, r, a, m); }
    else if pc.Claimed? || pc.Running? { ExecutingNears(s, r, a, m); }
    else if pc.Returned? { DrainingNears(s, r, a, m); }
    else if pc.Drained? || pc.Marked? || pc.Notifying? { CompletingNears(s, r, a, m); }
    else if pc.Decrementing? { DecrementingNears(s, r, a, m); }
    else if pc.DependentZeroed? || pc.DependentEnqueuing? { DependentNears(s, r, a, m); }
    else if pc.Exhausted? || pc.InlineWaiting? || pc.InlineRunning? { InlineNears(s, r, a, m); }
    else { AskingNears(s, r, a, m); }
  }

  lemma CountedWaits(s: Sys, r: Sys, a: Agent)
    requires Go(s, r, a)
    ensures a in s.agents && !s.agents[a].Counted?
  {
  }

  lemma GoKeepsTasks(s: Sys, r: Sys, a: Agent)
    requires Inv(s) && Go(s, r, a)
    ensures Kept(s, r)
  {
    hide Inv, Go, Kept;
    CountedWaits(s, r, a);
    var pc := s.agents[a];
    if IsOpening(pc) { OpeningKeepsTasks(s, r, a); }
    else if pc.Scanning? { ScanningKeepsTasks(s, r, a); }
    else if pc.Resolved? { ResolvedKeepsTasks(s, r, a); }
    else if pc.Unregistered? { SatisfiedKeepsTasks(s, r, a); }
    else if pc.Zeroed? || pc.Enqueuing? { EnqueuingKeepsTasks(s, r, a); }
    else if pc.Settling? { SettlingKeepsTasks(s, r, a); }
    else if HasSlot(pc) { ReturningKeepsTasks(s, r, a); }
    else if pc.Claimed? || pc.Running? || pc.Returned? { ExecutingKeepsTasks(s, r, a); }
    else if pc.Drained? || pc.Marked? || pc.Notifying? { CompletingKeepsTasks(s, r, a); }
    else if pc.Decrementing? { DecrementingKeepsTasks(s, r, a); }
    else if pc.DependentZeroed? || pc.DependentEnqueuing? { DependentKeepsTasks(s, r, a); }
    else if pc.Exhausted? || pc.InlineWaiting? || pc.InlineRunning? { InlineKeepsTasks(s, r, a); }
    else { AskingKeepsTasks(s, r, a); }
  }

  // ---------------------------------------------------------------- to the end

  /** Some agent that is in no call. */
  lemma SomeoneIdle(s: Sys) returns (a: Agent)
    ensures a !in s.agents
  {
    a := Beyond(s.agents.Keys);
  }

  lemma {:induction false} Beyond(agents: set<Agent>) returns (a: Agent)
    ensures a !in agents && forall b | b in agents :: b < a
  {
    if agents == {} {
      a := 0;
    } else {
      var b :| b in agents;
      a := Beyond(agents - {b});
      assert forall c | c in agents :: c == b || c in agents - {b};
      if b >= a { a := b + 1; }
    }
  }

  /** A ready task can be taken by every agent that is in no call. */
  lemma ReadyCanBeTaken(run: seq<Sys>, n: nat, id: TaskId, a: Agent) returns (r: Sys)
    requires Run(run) && n < |run| && id < |run[n].tasks| && run[n].tasks[id].phase.Ready? && a !in run[n].agents
    ensures Step(run[n], r, a, Dequeues(id))
  {
    hide Inv;
    RunKeepsInv(run, n);
    r := ReadyIsThere(run[n], id, a);
  }

  lemma ReadyIsThere(s: Sys, id: TaskId, a: Agent) returns (r: Sys)
    requires Inv(s) && id < |s.tasks| && s.tasks[id].phase.Ready? && a !in s.agents
    ensures Step(s, r, a, Dequeues(id))
    ensures Kept(s, r) && Has(r, a, id) && 0 <= Left(r.tasks[id], r.agents[a]) < 5 * |s.tasks[id].dependents| + 10
  {
    hide Inv;
    ReadyHolds(s, id);
    r := SetPc(SetPhase(s, id, InHand(a)), a, Claimed(id)).(ready := s.ready - multiset{id});
  }

  /** A task that has only been counted can find the pool exhausted and run inline. */
  lemma CountedCanRun(s: Sys, a: Agent, m: TaskId) returns (r: Sys)
    requires Inv(s) && Has(s, a, m) && s.agents[a].Counted? && WorksOn(s.agents[a], m, s.tasks[m].phase)
    ensures Step(s, r, a, Exhausts) && Nearer(s, r, a, m) && Kept(s, r)
  {
    r := CountedExhausts(s, a);
    hide Inv;
    PcHolds(s, a);
  }

  /** How far task `m` is from its end. */
  function Distance(s: Sys, m: TaskId): int
    requires m < |s.tasks|
  {
    var t := s.tasks[m];
    if Staffed(t.phase) && t.phase.agent in s.agents then Left(t, s.agents[t.phase.agent]) else 5 * |t.dependents| + 10
  }

  lemma OneStep(s: Sys, m: TaskId) returns (r: Sys)
    requires Inv(s) && m < |s.tasks| && Unsettled(s.tasks[m]) && DepsSettled(s, m)
    ensures Next(s, r) && Kept(s, r) && (Unsettled(r.tasks[m]) ==> 0 <= Distance(r, m) < Distance(s, m))
  {
    hide Inv, Go, Kept, Left, WorksOn;
    var t := s.tasks[m];
    if t.phase.Ready? {
      var a := SomeoneIdle(s);
      r := ReadyIsThere(s, m, a);
      assert Step(s, r, a, Dequeues(m));
    } else {
      NotBlocked(s, m);
      OwnerHolds(s, m);
      var a := t.phase.agent;
      if s.agents[a].Counted? {
        r := CountedCanRun(s, a, m);
        assert Step(s, r, a, Exhausts);
      } else {
        var action;
        r, action := AgentGoes(s, a);
        assert Step(s, r, a, Goes);
        GoNears(s, r, a, m);
        GoKeepsTasks(s, r, a);
      }
      ReadyDistance(s, r, a, m);
    }
  }

  /** A task that waits for a dependency waits for one that is not settled. */
  lemma NotBlocked(s: Sys, m: TaskId)
    requires Inv(s) && m < |s.tasks| && DepsSettled(s, m) && Unsettled(s.tasks[m])
    ensures s.tasks[m].phase.Ready? || Staffed(s.tasks[m].phase)
  {
    hide Inv;
    RecordHolds(s, m);
    if s.tasks[m].phase.Blocked? {
      forall j | 0 <= j < |s.tasks[m].edges| ensures s.tasks[m].edges[j] == Released { NothingAttached(s, m, j); }
      OpenZero(s.tasks[m].edges);
    }
  }

  lemma ReadyDistance(s: Sys, r: Sys, a: Agent, m: TaskId)
    requires Has(s, a, m) && Nearer(s, r, a, m)
    ensures m < |r.tasks| && (Unsettled(r.tasks[m]) ==> 0 <= Distance(r, m) < Distance(s, m))
  {
  }

  // -------------------------------------------------------------------- whole runs

  ghost predicate Path(path: seq<Sys>, s: Sys) {
    path != [] && path[0] == s && forall i | 0 < i < |path| :: Follows(path, i)
  }

  lemma Joined(first: seq<Sys>, second: seq<Sys>, s: Sys) returns (path: seq<Sys>)
    requires Path(first, s) && Path(second, first[|first| - 1])
    ensures Path(path, s) && path[|path| - 1] == second[|second| - 1] && first <= path
  {
    hide Next;
    path := first + second[1..];
    forall i | 0 < i < |path| ensures Follows(path, i) {
      if i < |first| {
        assert Follows(first, i);
      } else {
        assert Follows(second, i - |first| + 1);
        assert path[i - 1] == second[i - |first|];
      }
    }
  }

  lemma KeptOn(s: Sys, m: Sys, r: Sys)
    requires Kept(s, m) && Kept(m, r)
    ensures Kept(s, r)
  {
  }

  function Rank(s: Sys, m: TaskId): nat
    requires m < |s.tasks|
  { if !Unsettled(s.tasks[m]) then 0 else if Distance(s, m) < 0 then 1 else Distance(s, m) + 2 }

  lemma {:induction false} SettleOne(s: Sys, m: TaskId) returns (path: seq<Sys>)
    requires Inv(s) && m < |s.tasks| && DepsSettled(s, m)
    ensures Path(path, s)
    ensures var r := path[|path| - 1]; Inv(r) && Kept(s, r) && !Unsettled(r.tasks[m])
    decreases Rank(s, m)
  {
    hide Inv, Next, Distance;
    if Unsettled(s.tasks[m]) {
      var r := OneStep(s, m);
      NextKeepsInv(s, r);
      var rest := SettleOne(r, m);
      assert Follows([s, r], 1);
      path := Joined([s, r], rest, s);
      KeptOn(s, r, path[|path| - 1]);
    } else {
      path := [s];
    }
  }

  lemma NextKeepsInv(s: Sys, r: Sys)
    requires Inv(s) && Next(s, r)
    ensures Inv(r)
  {
    hide Inv, Step;
    var a: Agent, action: Action :| Step(s, r, a, action);
    StepKeepsInv(s, r, a, action);
  }

  lemma {:induction false} FirstUnsettled(tasks: seq<Task>, n: nat) returns (m: TaskId)
    requires n <= |tasks| && exists id :: 0 <= id < n && Unsettled(tasks[id])
    ensures m < n && Unsettled(tasks[m]) && forall id | 0 <= id < m :: !Unsettled(tasks[id])
  {
    if id :| 0 <= id < n - 1 && Unsettled(tasks[id]) { m := FirstUnsettled(tasks, n - 1); } else { m := n - 1; }
  }

  lemma {:induction false} NoMoreUnsettled(tasks: seq<Task>, after: seq<Task>)
    requires |after| == |tasks| && forall id | 0 <= id < |tasks| && !Unsettled(tasks[id]) :: !Unsettled(after[id])
    ensures CountUnsettled(after) <= CountUnsettled(tasks)
  {
    if tasks != [] { NoMoreUnsettled(tasks[..|tasks| - 1], after[..|tasks| - 1]); }
  }

  lemma {:induction false} FewerUnsettled(tasks: seq<Task>, after: seq<Task>, m: TaskId)
    requires |after| == |tasks| && forall id | 0 <= id < |tasks| && !Unsettled(tasks[id]) :: !Unsettled(after[id])
    requires m < |tasks| && Unsettled(tasks[m]) && !Unsettled(after[m])
    ensures CountUnsettled(after) < CountUnsettled(tasks)
  {
    var n := |tasks| - 1;
    if m < n { FewerUnsettled(tasks[..n], after[..n], m); } else { NoMoreUnsettled(tasks[..n], after[..n]); }
  }

  lemma {:induction false} FinishAll(s: Sys) returns (path: seq<Sys>)
    requires Inv(s)
    ensures Path(path, s)
    ensures var r := path[|path| - 1]; Inv(r) && Kept(s, r) && r.outstanding == 0
    decreases CountUnsettled(s.tasks)
  {
    hide Inv;
    OutstandingHolds(s);
    if s.outstanding == 0 {
      path := [s];
    } else {
      var some := SomeUnsettled(s.tasks);
      var m := FirstUnsettled(s.tasks, |s.tasks|);
      DepsHold(s, m);
      var first := SettleOne(s, m);
      var r := first[|first| - 1];
      FewerUnsettled(s.tasks, r.tasks, m);
      var rest := FinishAll(r);
      path := Joined(first, rest, s);
      KeptOn(s, r, path[|path| - 1]);
    }
  }

  predicate AllOver(s: Sys) { forall id | 0 <= id < |s.tasks| :: s.tasks[id].done || s.tasks[id].phase.Dropped? }

  /**
   Every run can be carried on to one in which everything submitted so far is finished: nothing
   is outstanding, and every body has returned save those whose construction threw.
   */
  lemma EveryRunCanFinish(run: seq<Sys>) returns (full: seq<Sys>)
    requires Run(run)
    ensures Run(full) && run <= full && |full[|full| - 1].tasks| == |run[|run| - 1].tasks|
    ensures full[|full| - 1].outstanding == 0 && AllOver(full[|full| - 1])
  {
    hide Inv, Init, Next;
    RunKeepsInv(run, |run| - 1);
    var rest := FinishAll(run[|run| - 1]);
    full := Joined(run, rest, run[0]);
    OutstandingIsExact(full, |full| - 1);
  }
}
