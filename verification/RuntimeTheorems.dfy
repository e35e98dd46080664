/** The guarantees of the runtime, over every interleaving of any number of calls. */
module RuntimeTheorems {
  import opened Basics
  import opened RuntimeModel
  import opened RuntimeInvariant
  import opened RuntimeFrames
  import opened RuntimeLinks
  import opened RuntimeSteps
  import opened RuntimeMoves

  // ------------------------------------------------- the invariant over a run

  lemma SubmissionKeeps(s: Sys, r: Sys, a: Agent)
    requires Inv(s) && Go(s, r, a) && IsAssembling(s.agents[a])
    ensures Inv(r)
  {
    hide Inv, Step;
    PcHolds(s, a);
    match s.agents[a]
    case Taken(id, kind, x) => OpenKeeps(s, r, a, id, kind, x);
    case Opened(id, kind, x) => PublishKeeps(s, r, a, id, kind, x);
    case Made(id, kind, x) =>
      if kind.After? { StoreWaitingKeeps(s, r, a, id, x); } else { StoreQueuedPlainKeeps(s, r, a, id, kind, x); }
    case MadeWaiting(id, x) => StorePendingKeeps(s, r, a, id, x);
    case Scanning(id, x, i) =>
      if i < |s.tasks[id].deps| { LookupKeeps(s, r, a, id, x, i); } else { DropGuardKeeps(s, r, a, id, x, i); }
    case Resolved(id, x, i) =>
      if r.agents[a].Scanning? { RegisterKeeps(s, r, a, id, x, i); } else { RefusedKeeps(s, r, a, id, x, i); }
    case Unregistered(id, x, i) => SatisfiedKeeps(s, r, a, id, x, i);
    case Undoing(id, x) => UndoKeeps(s, r, a, id, x);
  }

  lemma QueryKeeps(s: Sys, r: Sys, a: Agent)
    requires Inv(s) && Go(s, r, a) && IsQuery(s.agents[a])
    ensures Inv(r)
  {
    hide Inv, Step;
    PcHolds(s, a);
    match s.agents[a]
    case Exhausted(id, kind) => ExhaustedKeeps(s, r, a, id, kind);
    case InlineWaiting(id, j) =>
      if j < |s.tasks[id].deps| { InlineAskKeeps(s, r, a, id, j); } else { InlineStartKeeps(s, r, a, id, j); }
    case InlineRunning(id) => InlineReturnKeeps(s, r, a, id);
    case AskGet(id, asker) => QueryGetKeeps(s, r, a, id, asker);
    case AskState(id, asker) => QueryStateKeeps(s, r, a, id, asker);
    case AskGeneration(id, asker, seen) => QueryGenerationKeeps(s, r, a, id, asker, seen);
    case Answered(_, _, _) => AnsweredKeeps(s, r, a);
  }

  lemma ExecutionKeeps(s: Sys, r: Sys, a: Agent)
    requires Inv(s) && Go(s, r, a) && !IsAssembling(s.agents[a]) && !IsQuery(s.agents[a])
    ensures Inv(r)
  {
    hide Inv, Step;
    match s.agents[a]
    case Zeroed(id, x) => StoreQueuedKeeps(s, r, a, id, x);
    case Enqueuing(id) => EnqueueKeeps(s, r, a, id);
    case UndoBumped(id, x) => ResetListKeeps(s, r, a, x, UndoClosed(id, x));
    case UndoClosed(id, x) => StoreFreeKeeps(s, r, a, x, UndoFreed(id, x));
    case UndoFreed(id, x) => GiveBackKeeps(s, r, a, x, Settling(id));
    case Settling(id) => SettleKeeps(s, r, a, id);
    case Claimed(id) => ExecuteKeeps(s, r, a, id);
    case Running(id) => BodyReturnKeeps(s, r, a, id);
    case Returned(id) => TakeSuccessorsKeeps(s, r, a, id);
    case Drained(id, list) => StoreCompletedKeeps(s, r, a, id, list);
    case Marked(id, list) => BumpKeeps(s, r, a, id, SlotOf(s, id), list);
    case Bumped(id, x, list) => ResetListKeeps(s, r, a, x, Closed(id, x, list));
    case Closed(id, x, list) => StoreFreeKeeps(s, r, a, x, Freed(id, x, list));
    case Freed(id, x, list) => GiveBackKeeps(s, r, a, x, Notifying(id, list));
    case Notifying(id, list) =>
      if list == [] { FinishKeeps(s, r, a, id); } else { NotifyLookupKeeps(s, r, a, id, list); }
    case Decrementing(id, list) => DecrementKeeps(s, r, a, id, list);
    case DependentZeroed(id, list) => StoreDependentQueuedKeeps(s, r, a, id, list);
    case DependentEnqueuing(id, list) => EnqueueDependentKeeps(s, r, a, id, list);
  }

  lemma StepKeepsInv(s: Sys, r: Sys, a: Agent, action: Action)
    requires Inv(s) && Step(s, r, a, action)
    ensures Inv(r)
  {
    hide Inv, Go;
    match action
    case Calls(kind, deps) => CallKeeps(s, r, a, kind, deps);
    case Takes(x) => TakeKeeps(s, r, a, x);
    case Exhausts => ExhaustKeeps(s, r, a);
    case Throws => if s.agents[a].Opened? { ThrowOpenedKeeps(s, r, a); } else { ThrowInlineKeeps(s, r, a); }
    case Dequeues(id) => DequeueKeeps(s, r, a, id);
    case Asks(id) => AskKeeps(s, r, a, id);
    case Goes =>
      assert a in s.agents by { GoesFromAgent(s, r, a); }
      if IsAssembling(s.agents[a]) { SubmissionKeeps(s, r, a); }
      else if IsQuery(s.agents[a]) { QueryKeeps(s, r, a); }
      else { ExecutionKeeps(s, r, a); }
  }

  lemma GoesFromAgent(s: Sys, r: Sys, a: Agent)
    requires Go(s, r, a)
    ensures a in s.agents
  {
  }

  lemma InitInv(s: Sys)
    requires Init(s)
    ensures Inv(s)
  {
    hide PcOk;
  }

  lemma {:induction false} RunKeepsInv(run: seq<Sys>, n: nat)
    requires Run(run) && n < |run|
    ensures Inv(run[n])
  {
    hide Inv, Step, Init;
    if n == 0 {
      InitInv(run[0]);
    } else {
      RunKeepsInv(run, n - 1);
      assert Follows(run, n);
      var a: Agent, action: Action :| Step(run[n - 1], run[n], a, action);
      StepKeepsInv(run[n - 1], run[n], a, action);
    }
  }

  // ------------------------------------------------------------- main results

  /**
   Every task is enqueued at most once and starts at most once, on the pool path and on the
   inline path alike; it starts only after the body of every task it was declared to depend
   on has returned; and a task whose body has returned was started once, and enqueued once if
   it had a slot and not at all if it ran inline.
   */
  lemma EveryTaskRunsOnceAfterItsDependencies(run: seq<Sys>, n: nat, id: TaskId)
    requires Run(run) && n < |run| && id < |run[n].tasks|
    ensures var t := run[n].tasks[id];
      && t.enqueued <= 1 && t.started <= 1
      && (t.done ==> t.started == 1 && t.enqueued == if t.handle.Handle? then 1 else 0)
      && (t.started == 1 ==> forall k | 0 <= k < |t.deps| ::
            t.deps[k] < id && run[n].tasks[t.deps[k]].done)
  {
    hide Inv;
    RunKeepsInv(run, n);
    RecordHolds(run[n], id);
    DepsHold(run[n], id);
  }

  /** How many edges are in state `e`. */
  function Tally(edges: seq<Edge>, e: Edge): nat {
    if edges == [] then 0
    else Tally(edges[..|edges| - 1], e) + if edges[|edges| - 1] == e then 1 else 0
  }

  lemma {:induction false} OpenIsUnscannedPlusAttached(edges: seq<Edge>)
    ensures OpenEdges(edges) == Tally(edges, Unscanned) + Tally(edges, Attached)
  {
    if edges != [] { OpenIsUnscannedPlusAttached(edges[..|edges| - 1]); }
  }

  /**
   While a task has its slot, `pending_dependencies` is the guard, plus the edges not yet
   scanned, plus the edges attached to a predecessor.
   */
  lemma PendingCountsGuardUnscannedAndAttached(run: seq<Sys>, n: nat, id: TaskId)
    requires Run(run) && n < |run| && id < |run[n].tasks| && Resident(run[n].tasks[id].phase)
    ensures Resolves(run[n], id)
    ensures var t := run[n].tasks[id];
      run[n].slots[SlotOf(run[n], id)].pending ==
        (if t.guarded then 1 else 0) + Tally(t.edges, Unscanned) + Tally(t.edges, Attached)
  {
    hide Inv;
    RunKeepsInv(run, n);
    RecordHolds(run[n], id);
    OpenIsUnscannedPlusAttached(run[n].tasks[id].edges);
  }

  /** The entries a completing agent still has to act on. */
  function ToDo(pc: Pc): seq<Entry> {
    match pc
    case Drained(_, list) => list
    case Marked(_, list) => list
    case Bumped(_, _, list) => list
    case Closed(_, _, list) => list
    case Freed(_, _, list) => list
    case Notifying(_, list) => list
    case Decrementing(_, list) => list
    case DependentZeroed(_, list) => if list == [] then [] else list[1..]
    case DependentEnqueuing(_, list) => if list == [] then [] else list[1..]
    case _ => []
  }

  /**
   An attached edge has exactly one entry, in exactly one place: the open successor list of
   the slot of its predecessor, or the list that the agent completing that predecessor holds.
   */
  lemma AttachedEdgeHasOneEntry(run: seq<Sys>, n: nat, id: TaskId, i: nat)
    requires Run(run) && n < |run| && id < |run[n].tasks| && i < |run[n].tasks[id].edges|
    requires run[n].tasks[id].edges[i] == Attached
    ensures HasEdge(run[n].tasks, id, i)
    ensures var s := run[n]; var d := Dep(s.tasks, id, i);
      || (Resolves(s, d) && !s.slots[SlotOf(s, d)].closed
          && multiset(s.slots[SlotOf(s, d)].successors)[Entry(id, i)] == 1)
      || (s.tasks[d].done && (s.tasks[d].phase.Completing? || s.tasks[d].phase.Releasing?)
          && s.tasks[d].phase.agent in s.agents
          && multiset(ToDo(s.agents[s.tasks[d].phase.agent]))[Entry(id, i)] == 1)
  {
    hide Inv;
    RunKeepsInv(run, n);
    var s := run[n];
    EdgeHolds(s, id, i);
    var d := Dep(s.tasks, id, i);
    RecordHolds(s, d);
    DistinctHolds(s, d);
    OnceIfDistinct(s.tasks[d].dependents, Entry(id, i));
    if s.tasks[d].phase.Completing? || s.tasks[d].phase.Releasing? {
      OwnerHolds(s, d);
      PcHolds(s, s.tasks[d].phase.agent);
    }
  }

  lemma DistinctHolds(s: Sys, d: TaskId)
    requires Inv(s) && d < |s.tasks|
    ensures Distinct(s.tasks[d].dependents)
  {
  }

  lemma OwnerHolds(s: Sys, id: TaskId)
    requires Inv(s) && id < |s.tasks| && Staffed(s.tasks[id].phase)
    ensures s.tasks[id].phase.agent in s.agents
    ensures WorksOn(s.agents[s.tasks[id].phase.agent], id, s.tasks[id].phase)
  {
  }

  /** Conversely, an entry in an open list is the attached edge of a waiting task, on that very predecessor. */
  lemma ListedEntryIsAttached(run: seq<Sys>, n: nat, d: TaskId, e: Entry)
    requires Run(run) && n < |run| && Resolves(run[n], d)
    requires var slot := run[n].slots[SlotOf(run[n], d)]; !slot.closed && e in slot.successors
    requires Resident(run[n].tasks[d].phase)
    ensures EntryOk(run[n].tasks, d, e) && Resolves(run[n], e.task)
    ensures run[n].tasks[e.task].phase.Building? || run[n].tasks[e.task].phase.Blocked?
  {
    hide Inv;
    RunKeepsInv(run, n);
    RecordHolds(run[n], d);
    AttachedIsResident(run[n], d, e);
  }

  // -------------------------------------------------------- no dependent is lost

  /** Executing a body, or asking about completion: not a submission or a completion in progress. */
  predicate Quiet(pc: Pc) {
    || pc.Claimed? || pc.Running? || pc.Answered?
    || ((pc.AskGet? || pc.AskState? || pc.AskGeneration?) && pc.asker.Caller?)
  }

  predicate Runnable(t: Task) { t.phase.Ready? || t.phase.InHand? || t.phase.InBody? }

  lemma {:induction false} SomeUnsettled(tasks: seq<Task>) returns (id: TaskId)
    requires CountUnsettled(tasks) > 0
    ensures id < |tasks| && Unsettled(tasks[id])
  {
    var n := |tasks| - 1;
    if Unsettled(tasks[n]) { id := n; } else { id := SomeUnsettled(tasks[..n]); }
  }

  /** From a task that is not settled, down its unfinished dependencies, to one that can run. */
  lemma {:induction false} Descend(s: Sys, id: TaskId) returns (j: TaskId)
    requires Inv(s) && id < |s.tasks| && Unsettled(s.tasks[id])
    requires forall a | a in s.agents :: Quiet(s.agents[a])
    ensures j <= id && Runnable(s.tasks[j])
    decreases id
  {
    hide Inv;
    RecordHolds(s, id);
    if Staffed(s.tasks[id].phase) { OwnerHolds(s, id); }
    if Runnable(s.tasks[id]) {
      j := id;
    } else {
      OpenZero(s.tasks[id].edges);
      var i :| 0 <= i < |s.tasks[id].edges| && s.tasks[id].edges[i] != Released;
      EdgeHolds(s, id, i);
      DepsHold(s, id);
      var d := Dep(s.tasks, id, i);
      RecordHolds(s, d);
      j := Descend(s, d);
    }
  }

  lemma OutstandingHolds(s: Sys)
    requires Inv(s)
    ensures s.outstanding == CountUnsettled(s.tasks)
  {
  }

  /**
   No dependent is lost: whenever tasks are outstanding and no submission or completion is in
   progress, some task is queued or executing.
   */
  lemma NoDependentIsLost(run: seq<Sys>, n: nat)
    requires Run(run) && n < |run| && run[n].outstanding != 0
    requires forall a | a in run[n].agents :: Quiet(run[n].agents[a])
    ensures exists j :: 0 <= j < |run[n].tasks| && Runnable(run[n].tasks[j])
  {
    hide Inv;
    RunKeepsInv(run, n);
    OutstandingHolds(run[n]);
    var id := SomeUnsettled(run[n].tasks);
    var j := Descend(run[n], id);
  }

  // --------------------------------------------------------------- dispatch

  /** A worker that claimed a handle finds the task, still queued: nothing is dispatched twice. */
  lemma ClaimedTaskIsQueued(run: seq<Sys>, n: nat, a: Agent)
    requires Run(run) && n < |run| && a in run[n].agents && run[n].agents[a].Claimed?
    ensures var id := run[n].agents[a].task;
      Resolves(run[n], id) && run[n].slots[SlotOf(run[n], id)].state == Queued && run[n].ready[id] == 0
  {
    hide Inv;
    RunKeepsInv(run, n);
    PcHolds(run[n], a);
    RecordHolds(run[n], run[n].agents[a].task);
    ReadyHolds(run[n], run[n].agents[a].task);
  }

  /** A completing task never finds a dependent recycled. */
  lemma DependentAlwaysResolves(run: seq<Sys>, n: nat, a: Agent)
    requires Run(run) && n < |run| && a in run[n].agents && run[n].agents[a].Notifying? && run[n].agents[a].list != []
    ensures Resolves(run[n], run[n].agents[a].list[0].task)
  {
    hide Inv;
    RunKeepsInv(run, n);
    PcHolds(run[n], a);
    AttachedIsResident(run[n], run[n].agents[a].task, run[n].agents[a].list[0]);
  }

  // ------------------------------------------------------------ outstanding count

  lemma {:induction false} NoneUnsettled(tasks: seq<Task>, id: TaskId)
    requires CountUnsettled(tasks) == 0 && id < |tasks|
    ensures !Unsettled(tasks[id])
  {
    if id < |tasks| - 1 { NoneUnsettled(tasks[..|tasks| - 1], id); }
  }

  /**
   `outstanding_` is the number of counted submissions that have not settled, so it never
   underflows; when it is zero every counted body has returned, save those whose construction threw.
   */
  lemma OutstandingIsExact(run: seq<Sys>, n: nat)
    requires Run(run) && n < |run|
    ensures run[n].outstanding == CountUnsettled(run[n].tasks) >= 0
    ensures run[n].outstanding == 0 ==>
      forall id | 0 <= id < |run[n].tasks| :: run[n].tasks[id].done || run[n].tasks[id].phase.Dropped?
  {
    hide Inv;
    RunKeepsInv(run, n);
    OutstandingHolds(run[n]);
    if run[n].outstanding == 0 {
      forall id | 0 <= id < |run[n].tasks| ensures run[n].tasks[id].done || run[n].tasks[id].phase.Dropped? {
        NoneUnsettled(run[n].tasks, id);
        RecordHolds(run[n], id);
      }
    }
  }

  /** Only `submit_emplace` gives a counted submission up: there alone construction can throw after counting. */
  lemma DroppedIsInPlace(run: seq<Sys>, n: nat, id: TaskId)
    requires Run(run) && n < |run| && id < |run[n].tasks| && run[n].tasks[id].phase.Dropped?
    ensures run[n].tasks[id].kind.InPlace?
  {
    hide Inv;
    RunKeepsInv(run, n);
    RecordHolds(run[n], id);
  }

  // ------------------------------------------------------------ the ready bag

  predicate IsEnqueuing(pc: Pc) { pc.Enqueuing? || (pc.DependentEnqueuing? && pc.list != []) }

  /** The task an agent at `pc` is about to give to `enqueue_ready`. */
  function ToEnqueue(pc: Pc): TaskId
    requires IsEnqueuing(pc)
  { if pc.Enqueuing? then pc.task else pc.list[0].task }

  /** What a step does to the ready tasks: what a dispatcher does for `enqueue_ready` and `acquire_next`. */
  ghost predicate DispatchesTo(s: Sys, r: Sys, a: Agent, action: Action) {
    if action.Dequeues? then Removes(s.ready, r.ready, action.task)
    else if action.Goes? && a in s.agents && IsEnqueuing(s.agents[a]) then Inserts(s.ready, r.ready, ToEnqueue(s.agents[a]))
    else r.ready == s.ready
  }

  lemma EnqueuingInserts(s: Sys, r: Sys, a: Agent)
    requires Go(s, r, a) && (s.agents[a].Enqueuing? || s.agents[a].DependentEnqueuing?)
    ensures DispatchesTo(s, r, a, Goes)
  {
  }

  lemma AssemblingKeepsReady(s: Sys, r: Sys, a: Agent)
    requires Go(s, r, a) && IsAssembling(s.agents[a]) && !s.agents[a].Enqueuing?
    ensures r.ready == s.ready
  {
  }

  lemma QueryKeepsReady(s: Sys, r: Sys, a: Agent)
    requires Go(s, r, a) && IsQuery(s.agents[a])
    ensures r.ready == s.ready
  {
  }

  lemma OthersKeepReady(s: Sys, r: Sys, a: Agent)
    requires Go(s, r, a) && !IsAssembling(s.agents[a]) && !IsQuery(s.agents[a])
    requires !s.agents[a].Enqueuing? && !s.agents[a].DependentEnqueuing?
    ensures r.ready == s.ready
  {
  }

  /**
   The bag of ready tasks takes a task in exactly when an agent hands it to `enqueue_ready`, and
   gives one out exactly when a worker acquires it, which is what the two dispatchers provide.
   */
  lemma ReadyIsABag(s: Sys, r: Sys, a: Agent, action: Action)
    requires Step(s, r, a, action)
    ensures DispatchesTo(s, r, a, action)
  {
    hide Go;
    if action.Goes? {
      GoesFromAgent(s, r, a);
      var pc := s.agents[a];
      if pc.Enqueuing? || pc.DependentEnqueuing? { EnqueuingInserts(s, r, a); }
      else if IsAssembling(pc) { AssemblingKeepsReady(s, r, a); }
      else if IsQuery(pc) { QueryKeepsReady(s, r, a); }
      else { OthersKeepReady(s, r, a); }
    }
  }

  // ------------------------------------------------------ completion queries

  /**
   An answer `true` means the body has returned; and a query begun when an uninterrupted
   query would already have answered `true` answers `true`, whatever is recycled under it.
   */
  lemma CompletionAnswersAreSound(run: seq<Sys>, n: nat, a: Agent)
    requires Run(run) && n < |run| && a in run[n].agents && run[n].agents[a].Answered?
    ensures var Answered(id, sure, answer) := run[n].agents[a];
      id < |run[n].tasks| && (answer ==> run[n].tasks[id].done) && (sure ==> answer)
  {
    hide Inv;
    RunKeepsInv(run, n);
    PcHolds(run[n], a);
  }

  /** What a step of `a` cannot do to another agent, to a slot or to the handle of a known task. */
  ghost predicate Moves(s: Sys, r: Sys, a: Agent, id: TaskId)
    requires id < |s.tasks|
  {
    && OnlyAgent(s, r, a) && |r.slots| == |s.slots| && |s.tasks| <= |r.tasks|
    && (forall x | 0 <= x < |s.slots| :: s.slots[x].generation <= r.slots[x].generation)
    && (s.tasks[id].known ==> r.tasks[id].known)
    && (r.tasks[id].handle == s.tasks[id].handle
        || (a in s.agents && s.agents[a].Taken? && s.agents[a].task == id))
  }

  lemma SubmissionMoves(s: Sys, r: Sys, a: Agent, id: TaskId)
    requires Go(s, r, a) && IsAssembling(s.agents[a]) && !s.agents[a].Resolved? && id < |s.tasks|
    ensures Moves(s, r, a, id)
  {
  }

  lemma RegistrationMoves(s: Sys, r: Sys, a: Agent, id: TaskId)
    requires Go(s, r, a) && s.agents[a].Resolved? && id < |s.tasks|
    ensures Moves(s, r, a, id)
  {
  }

  lemma QueryMoves(s: Sys, r: Sys, a: Agent, id: TaskId)
    requires Go(s, r, a) && IsQuery(s.agents[a]) && id < |s.tasks|
    ensures Moves(s, r, a, id)
  {
  }

  lemma ReturnMoves(s: Sys, r: Sys, a: Agent, id: TaskId)
    requires Go(s, r, a) && HasSlot(s.agents[a]) && id < |s.tasks|
    ensures Moves(s, r, a, id)
  {
  }

  predicate IsExecution(pc: Pc) {
    pc.Claimed? || pc.Running? || pc.Returned? || pc.Drained? || pc.Marked? || pc.Notifying?
  }

  lemma ExecutionMoves(s: Sys, r: Sys, a: Agent, id: TaskId)
    requires Go(s, r, a) && IsExecution(s.agents[a]) && id < |s.tasks|
    ensures Moves(s, r, a, id)
  {
  }

  lemma PublicationMoves(s: Sys, r: Sys, a: Agent, id: TaskId)
    requires Go(s, r, a) && id < |s.tasks|
    requires !IsAssembling(s.agents[a]) && !IsQuery(s.agents[a]) && !HasSlot(s.agents[a]) && !IsExecution(s.agents[a])
    ensures Moves(s, r, a, id)
  {
  }

  lemma StepMoves(s: Sys, r: Sys, a: Agent, action: Action, id: TaskId)
    requires Step(s, r, a, action) && id < |s.tasks|
    ensures Moves(s, r, a, id)
  {
    hide Go;
    if action.Goes? {
      hide Moves;
      assert a in s.agents by { GoesFromAgent(s, r, a); }
      var pc := s.agents[a];
      if pc.Resolved? { RegistrationMoves(s, r, a, id); }
      else if IsAssembling(pc) { SubmissionMoves(s, r, a, id); }
      else if IsQuery(pc) { QueryMoves(s, r, a, id); }
      else if HasSlot(pc) { ReturnMoves(s, r, a, id); }
      else if IsExecution(pc) { ExecutionMoves(s, r, a, id); }
      else { PublicationMoves(s, r, a, id); }
    }
  }

  /** A handle once returned keeps naming the same task. */
  lemma StepKeepsHandles(s: Sys, r: Sys, a: Agent, action: Action, id: TaskId)
    requires Inv(s) && Step(s, r, a, action) && id < |s.tasks| && s.tasks[id].known
    ensures Moves(s, r, a, id) && r.tasks[id].known && r.tasks[id].handle == s.tasks[id].handle
  {
    hide Inv, Step, PcOk;
    StepMoves(s, r, a, action, id);
    RecordHolds(s, id);
    if a in s.agents && s.agents[a].Taken? { PcHolds(s, a); TakerIsCounting(s, a); }
  }

  lemma TakerIsCounting(s: Sys, a: Agent)
    requires a in s.agents && PcOk(s, a, s.agents[a]) && s.agents[a].Taken?
    ensures InPhase(s, s.agents[a].task, Counting(a))
  {
  }

  lemma StepKeepsComplete(s: Sys, r: Sys, a: Agent, action: Action, id: TaskId)
    requires Inv(s) && Step(s, r, a, action) && id < |s.tasks| && s.tasks[id].known && LooksComplete(s, id)
    ensures id < |r.tasks| && r.tasks[id].known && LooksComplete(r, id)
  {
    hide Inv, Step;
    StepKeepsHandles(s, r, a, action, id);
    StepKeepsInv(s, r, a, action);
    RecordHolds(s, id);
    if Resolves(s, id) {
      OwnerHolds(s, id);
      var b := s.tasks[id].phase.agent;
      PcHolds(s, b);
      OthersStay(s, r, a);
      if a != b { PcHolds(r, b); }
      else { MarkedAgentBumps(s, r, a, action, id); }
    }
  }

  lemma MarkedAgentBumps(s: Sys, r: Sys, a: Agent, action: Action, id: TaskId)
    requires Step(s, r, a, action) && a in s.agents && s.agents[a].Marked? && s.agents[a].task == id
    requires Resolves(s, id)
    ensures id < |r.tasks| && !Resolves(r, id)
  {
  }

  /** Once a query on a handle could answer `true`, every later query on it does. */
  lemma {:induction false} CompletionIsStable(run: seq<Sys>, n: nat, m: nat, id: TaskId)
    requires Run(run) && n <= m < |run| && id < |run[n].tasks| && run[n].tasks[id].known
    requires LooksComplete(run[n], id)
    ensures id < |run[m].tasks| && run[m].tasks[id].known && LooksComplete(run[m], id)
    ensures run[m].tasks[id].done
  {
    hide Inv, Step;
    if n < m {
      CompletionIsStable(run, n, m - 1, id);
      RunKeepsInv(run, m - 1);
      assert Follows(run, m);
      var a: Agent, action: Action :| Step(run[m - 1], run[m], a, action);
      StepKeepsComplete(run[m - 1], run[m], a, action, id);
    }
    RunKeepsInv(run, m);
    if Resolves(run[m], id) { CompletedMeansDone(run[m], id); } else { StaleMeansDone(run[m], id); }
  }
}
