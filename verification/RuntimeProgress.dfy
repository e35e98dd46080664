/**
 No call gets stuck: in every reachable state, whatever an agent is about to look up is there,
 so the guards of the steps in RuntimeModel exclude nothing.
 */
module RuntimeProgress {
  import opened RuntimeModel
  import opened RuntimeInvariant
  import opened RuntimeFrames
  import opened RuntimeLinks
  import opened RuntimeSteps
  import opened RuntimeMoves
  import opened RuntimeTheorems

  predicate IsOpening(pc: Pc) { pc.Taken? || pc.Opened? || pc.Made? || pc.MadeWaiting? || pc.Undoing? }

  lemma OpeningGoes(s: Sys, a: Agent) returns (r: Sys)
    requires Inv(s) && a in s.agents && IsOpening(s.agents[a])
    ensures Go(s, r, a)
  {
    hide Inv;
    PcHolds(s, a);
    match s.agents[a]
    case Taken(id, kind, x) =>
      r := SetPc(
        SetTask(
          SetSlot(s, x, s.slots[x].(pending := 0, closed := false, successors := [], use := HeldFor(id))),
          id, s.tasks[id].(handle := Handle(x, s.slots[x].generation), phase := Building(a))),
        a, Opened(id, kind, x));
    case Opened(id, kind, x) =>
      r := if kind.InPlace?
           then SetPc(SetTask(SetState(s, x, Queued), id, s.tasks[id].(phase := Publishing(a), known := true)), a, Enqueuing(id))
           else SetPc(SetTask(SetState(s, x, Created), id, s.tasks[id].(known := true)), a, Made(id, kind, x));
    case Made(id, kind, x) =>
      r := if kind.After? then SetPc(SetState(s, x, Waiting), a, MadeWaiting(id, x))
           else SetPc(SetPhase(SetState(s, x, Queued), id, Publishing(a)), a, Enqueuing(id));
    case MadeWaiting(id, x) =>
      var t := s.tasks[id];
      r := SetPc(SetTask(SetSlot(s, x, s.slots[x].(pending := |t.deps| + 1)), id,
                         t.(guarded := true, edges := seq(|t.deps|, i => Unscanned))), a, Scanning(id, x, 0));
    case Undoing(id, x) =>
      r := SetPc(SetPhase(SetSlot(s, x, s.slots[x].(generation := s.slots[x].generation + 1, use := InTransit(a))),
                          id, Dropping(a)), a, UndoBumped(id, x));
  }

  lemma ScanningGoes(s: Sys, a: Agent) returns (r: Sys)
    requires Inv(s) && a in s.agents && s.agents[a].Scanning?
    ensures Go(s, r, a)
  {
    hide Inv;
    PcHolds(s, a);
    var Scanning(id, x, i) := s.agents[a];
    RecordHolds(s, id);
    DepsHold(s, id);
    if i < |s.tasks[id].deps| {
      r := SetPc(s, a, if Resolves(s, Dep(s.tasks, id, i)) then Resolved(id, x, i) else Unregistered(id, x, i));
    } else {
      var last := s.slots[x].pending == 1;
      var t := s.tasks[id].(guarded := false, phase := if last then Publishing(a) else Blocked);
      var dropped := SetTask(SetSlot(s, x, s.slots[x].(pending := s.slots[x].pending - 1)), id, t);
      r := if last then SetPc(dropped, a, Zeroed(id, x)) else Leave(dropped, a);
    }
  }

  lemma ResolvedGoes(s: Sys, a: Agent) returns (r: Sys)
    requires Inv(s) && a in s.agents && s.agents[a].Resolved?
    ensures Go(s, r, a)
  {
    hide Inv;
    PcHolds(s, a);
    var Resolved(id, x, i) := s.agents[a];
    DepsHold(s, id);
    var d := Dep(s.tasks, id, i);
    var y := SlotOf(s, d);
    if !s.slots[y].closed && Resolves(s, d) {
      var listed := SetSlot(s, y, s.slots[y].(successors := s.slots[y].successors + [Entry(id, i)]));
      var told := SetTask(listed, d, s.tasks[d].(dependents := s.tasks[d].dependents + [Entry(id, i)]));
      r := SetPc(SetTask(told, id, s.tasks[id].(edges := s.tasks[id].edges[i := Attached])), a, Scanning(id, x, i + 1));
    } else {
      r := SetPc(s, a, Unregistered(id, x, i));
    }
  }

  predicate IsPublishing(pc: Pc) { pc.Unregistered? || pc.Zeroed? || pc.Enqueuing? || pc.Settling? }

  lemma PublishingGoes(s: Sys, a: Agent) returns (r: Sys)
    requires Inv(s) && a in s.agents && IsPublishing(s.agents[a])
    ensures Go(s, r, a)
  {
    hide Inv;
    PcHolds(s, a);
    match s.agents[a]
    case Unregistered(id, x, i) =>
      r := SetPc(SetTask(SetSlot(s, x, s.slots[x].(pending := s.slots[x].pending - 1)), id, Release(s.tasks[id], i)),
                 a, Scanning(id, x, i + 1));
    case Zeroed(id, x) => r := SetPc(SetState(s, x, Queued), a, Enqueuing(id));
    case Enqueuing(id) =>
      r := Leave(SetTask(s, id, s.tasks[id].(phase := Ready, enqueued := s.tasks[id].enqueued + 1))
                 .(ready := s.ready + multiset{id}), a);
    case Settling(id) =>
      var t := s.tasks[id];
      r := Leave(SetTask(s, id, if t.phase.Dropping? then t.(phase := Dropped) else t.(phase := InlineRetired, known := true))
                 .(outstanding := s.outstanding - 1), a);
  }

  /** Giving a slot back, on the throwing path and on completion. */
  lemma ReturningGoes(s: Sys, a: Agent) returns (r: Sys)
    requires Inv(s) && a in s.agents && HasSlot(s.agents[a])
    ensures Go(s, r, a)
  {
    hide Inv;
    PcHolds(s, a);
    match s.agents[a]
    case UndoBumped(id, x) => r := SetPc(SetSlot(s, x, s.slots[x].(closed := true, successors := [])), a, UndoClosed(id, x));
    case UndoClosed(id, x) => r := SetPc(SetState(s, x, Free), a, UndoFreed(id, x));
    case UndoFreed(id, x) => r := SetPc(SetSlot(s, x, s.slots[x].(use := Listed)), a, Settling(id));
    case Bumped(id, x, list) => r := SetPc(SetSlot(s, x, s.slots[x].(closed := true, successors := [])), a, Closed(id, x, list));
    case Closed(id, x, list) => r := SetPc(SetState(s, x, Free), a, Freed(id, x, list));
    case Freed(id, x, list) => r := SetPc(SetSlot(s, x, s.slots[x].(use := Listed)), a, Notifying(id, list));
  }

  lemma ExecutingGoes(s: Sys, a: Agent) returns (r: Sys)
    requires Inv(s) && a in s.agents && (s.agents[a].Claimed? || s.agents[a].Running? || s.agents[a].Returned?)
    ensures Go(s, r, a)
  {
    hide Inv;
    PcHolds(s, a);
    RecordHolds(s, s.agents[a].task);
    match s.agents[a]
    case Claimed(id) =>
      r := SetPc(SetTask(SetState(s, SlotOf(s, id), Executing), id,
                         s.tasks[id].(phase := InBody(a), started := s.tasks[id].started + 1)), a, Running(id));
    case Running(id) => r := SetPc(SetTask(s, id, s.tasks[id].(phase := Finished(a), done := true)), a, Returned(id));
    case Returned(id) =>
      var x := SlotOf(s, id);
      r := SetPc(SetPhase(SetSlot(s, x, s.slots[x].(closed := true, successors := [])), id, Completing(a)),
                 a, Drained(id, s.slots[x].successors));
  }

  lemma CompletingGoes(s: Sys, a: Agent) returns (r: Sys)
    requires Inv(s) && a in s.agents && (s.agents[a].Drained? || s.agents[a].Marked? || s.agents[a].Notifying?)
    ensures Go(s, r, a)
  {
    hide Inv;
    PcHolds(s, a);
    match s.agents[a]
    case Drained(id, list) => r := SetPc(SetState(s, SlotOf(s, id), Completed), a, Marked(id, list));
    case Marked(id, list) =>
      var x := SlotOf(s, id);
      r := SetPc(SetPhase(SetSlot(s, x, s.slots[x].(generation := s.slots[x].generation + 1, use := InTransit(a))),
                          id, Releasing(a)), a, Bumped(id, x, list));
    case Notifying(id, list) =>
      r := if list == [] then Leave(SetPhase(s, id, Retired).(outstanding := s.outstanding - 1), a)
           else SetPc(s, a, if Resolves(s, list[0].task) then Decrementing(id, list) else Notifying(id, list[1..]));
  }

  predicate IsReleasing(pc: Pc) { pc.Decrementing? || pc.DependentZeroed? || pc.DependentEnqueuing? }

  lemma ReleasingGoes(s: Sys, a: Agent) returns (r: Sys)
    requires Inv(s) && a in s.agents && IsReleasing(s.agents[a])
    ensures Go(s, r, a)
  {
    hide Inv;
    PcHolds(s, a);
    var id, list := s.agents[a].task, s.agents[a].list;
    var d := list[0].task;
    match s.agents[a]
    case Decrementing(_, _) =>
      AttachedIsResident(s, id, list[0]);
      var y := SlotOf(s, d);
      var last := s.slots[y].pending == 1;
      var t := Release(s.tasks[d], list[0].position);
      var less := SetSlot(s, y, s.slots[y].(pending := s.slots[y].pending - 1));
      var told := SetTask(less, id, s.tasks[id].(dependents := list[1..]));
      r := SetPc(SetTask(told, d, if last then t.(phase := Publishing(a)) else t),
                 a, if last then DependentZeroed(id, list) else Notifying(id, list[1..]));
    case DependentZeroed(_, _) =>
      RecordHolds(s, d);
      r := SetPc(SetState(s, SlotOf(s, d), Queued), a, DependentEnqueuing(id, list));
    case DependentEnqueuing(_, _) =>
      r := SetPc(SetTask(s, d, s.tasks[d].(phase := Ready, enqueued := s.tasks[d].enqueued + 1))
                 .(ready := s.ready + multiset{d}), a, Notifying(id, list[1..]));
  }

  lemma QueryGoes(s: Sys, a: Agent) returns (r: Sys)
    requires Inv(s) && a in s.agents && IsQuery(s.agents[a])
    ensures Go(s, r, a)
  {
    hide Inv;
    PcHolds(s, a);
    match s.agents[a]
    case Exhausted(id, _) => r := SetPc(s, a, InlineWaiting(id, 0));
    case InlineWaiting(id, j) =>
      r := if j < |s.tasks[id].deps| then SetPc(s, a, AskGet(s.tasks[id].deps[j], InlineWait(id, j)))
           else SetPc(SetTask(s, id, s.tasks[id].(started := s.tasks[id].started + 1)), a, InlineRunning(id));
    case InlineRunning(id) => r := SetPc(SetTask(s, id, s.tasks[id].(phase := InlineFinished(a), done := true)), a, Settling(id));
    case AskGet(id, asker) => r := if Resolves(s, id) then SetPc(s, a, AskState(id, asker)) else Reply(s, a, id, asker, true);
    case AskState(id, asker) => r := SetPc(s, a, AskGeneration(id, asker, s.slots[SlotOf(s, id)].state));
    case AskGeneration(id, asker, seen) => r := Reply(s, a, id, asker, if Resolves(s, id) then seen == Completed else true);
    case Answered(_, _, _) => r := Leave(s, a);
  }

  lemma CountedExhausts(s: Sys, a: Agent) returns (r: Sys)
    requires Inv(s) && a in s.agents && s.agents[a].Counted?
    ensures Exhaust(s, r, a)
  {
    hide Inv;
    PcHolds(s, a);
    var Counted(id, kind) := s.agents[a];
    r := SetPc(SetPhase(s, id, InlineBusy(a)), a, Exhausted(id, kind));
  }

  lemma AgentGoes(s: Sys, a: Agent) returns (r: Sys, action: Action)
    requires Inv(s) && a in s.agents
    ensures Step(s, r, a, action) && action == if s.agents[a].Counted? then Exhausts else Goes
  {
    hide Inv, Go, Exhaust;
    var pc := s.agents[a];
    if pc.Counted? {
      action := Exhausts;
      r := CountedExhausts(s, a);
    } else {
      action := Goes;
      if IsOpening(pc) { r := OpeningGoes(s, a); }
      else if pc.Scanning? { r := ScanningGoes(s, a); }
      else if pc.Resolved? { r := ResolvedGoes(s, a); }
      else if IsPublishing(pc) { r := PublishingGoes(s, a); }
      else if HasSlot(pc) { r := ReturningGoes(s, a); }
      else if pc.Claimed? || pc.Running? || pc.Returned? { r := ExecutingGoes(s, a); }
      else if IsExecution(pc) { r := CompletingGoes(s, a); }
      else if IsReleasing(pc) { r := ReleasingGoes(s, a); }
      else { r := QueryGoes(s, a); }
    }
  }

  /**
   Every call in progress, in every reachable state, has a next access that it can make itself;
   a submission that has only counted itself can at the least find the pool exhausted.
   */
  lemma NoCallIsStuck(run: seq<Sys>, n: nat, a: Agent) returns (r: Sys, action: Action)
    requires Run(run) && n < |run| && a in run[n].agents
    ensures Step(run[n], r, a, action)
    ensures action == if run[n].agents[a].Counted? then Exhausts else Goes
  {
    hide Inv, Step;
    RunKeepsInv(run, n);
    r, action := AgentGoes(run[n], a);
  }

  // ------------------------------------------------------- calls that can begin

  /** An agent that is in no call can submit anything behind handles that have been returned, and ask about any of them. */
  lemma IdleAgentCanCall(s: Sys, a: Agent, kind: Kind, deps: seq<TaskId>) returns (r: Sys)
    requires a !in s.agents && (kind.After? <==> deps != [])
    requires forall i | 0 <= i < |deps| :: deps[i] < |s.tasks| && s.tasks[deps[i]].known
    ensures Step(s, r, a, Calls(kind, deps))
  {
    r := s.(agents := s.agents[a := Counted(|s.tasks|, kind)],
            tasks := s.tasks + [Task(Invalid, kind, deps, [], false, [], Counting(a), false, 0, 0, false)],
            outstanding := s.outstanding + 1);
  }

  lemma IdleAgentCanAsk(s: Sys, a: Agent, id: TaskId) returns (r: Sys)
    requires a !in s.agents && id < |s.tasks| && s.tasks[id].known
    ensures Step(s, r, a, Asks(id))
  {
    r := SetPc(s, a, AskGet(id, Caller(LooksComplete(s, id))));
  }

  /** A submission that has counted itself can take any slot that is free. */
  lemma FreeSlotCanBeTaken(s: Sys, a: Agent, x: nat) returns (r: Sys)
    requires a in s.agents && s.agents[a].Counted? && x < |s.slots| && s.slots[x].use == Listed
    ensures Step(s, r, a, Takes(x)) && a in r.agents && r.agents[a].Taken? && r.agents[a].slot == x
  {
    var Counted(id, kind) := s.agents[a];
    r := SetPc(SetSlot(s, x, s.slots[x].(use := InTransit(a))), a, Taken(id, kind, x));
  }
}
