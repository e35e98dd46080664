/**
 Calls return: no access of a submission, a completion or a query leads round in a circle. The
 one exception is meant: a submission that runs inline asks about a dependency until it is done.
 */
module RuntimeReturns {
  import opened RuntimeModel
  import opened RuntimeInvariant
  import opened RuntimeFrames
  import opened RuntimeLinks
  import opened RuntimeSteps
  import opened RuntimeMoves
  import opened RuntimeTheorems
  import opened RuntimeProgress
  import opened RuntimeFinish

  /** Waiting, before an inline run, for the dependencies. */
  predicate Polling(pc: Pc) {
    pc.InlineWaiting? || ((pc.AskGet? || pc.AskState? || pc.AskGeneration?) && pc.asker.InlineWait?)
  }

  /** A task in a worker's hands, up to the point where its list of dependents is closed. */
  function Ahead(pc: Pc): nat {
    match pc
    case Claimed(_) => 3
    case Running(_) => 2
    case Returned(_) => 1
    case _ => 0
  }

  predicate IsEarly(pc: Pc) {
    pc.Taken? || pc.Opened? || pc.Made? || pc.MadeWaiting? || pc.Scanning? || pc.Resolved? || pc.Unregistered?
    || pc.Zeroed? || pc.Enqueuing?
  }

  /** How many accesses the call has left, at most, once nothing can lengthen its list any more. */
  function CallLeft(s: Sys, pc: Pc): int {
    if IsEarly(pc) then if pc.task < |s.tasks| then EarlyLeft(pc, |s.tasks[pc.task].deps|) else 0
    else if pc.AskGet? then 4
    else if pc.AskState? then 3
    else if pc.AskGeneration? then 2
    else if pc.Answered? then 1
    else if IsExecution(pc) || IsReleasing(pc) || pc.Bumped? || pc.Closed? || pc.Freed? then ListLeft(pc)
    else InlineLeft(pc, 0)
  }

  /** The access was the last of the call, or leads on to waiting for dependencies, or leaves fewer to make. */
  predicate GoesForward(s: Sys, r: Sys, a: Agent)
    requires a in s.agents
  {
    a in r.agents ==>
      var p, q := s.agents[a], r.agents[a];
      Polling(q) || Ahead(q) < Ahead(p) || (Ahead(q) == Ahead(p) && 0 <= CallLeft(r, q) < CallLeft(s, p))
  }

  lemma OpeningForward(s: Sys, r: Sys, a: Agent)
    requires Inv(s) && Go(s, r, a) && IsOpening(s.agents[a])
    ensures GoesForward(s, r, a)
  {
    hide Inv;
    PcHolds(s, a);
  }

  lemma AssemblingForward(s: Sys, r: Sys, a: Agent)
    requires Inv(s) && Go(s, r, a) && (s.agents[a].Scanning? || s.agents[a].Resolved? || s.agents[a].Unregistered?)
    ensures GoesForward(s, r, a)
  {
    hide Inv;
    PcHolds(s, a);
    RecordHolds(s, s.agents[a].task);
  }

  lemma PublishingForward(s: Sys, r: Sys, a: Agent)
    requires Go(s, r, a) && (s.agents[a].Zeroed? || s.agents[a].Enqueuing? || s.agents[a].Settling?)
    ensures GoesForward(s, r, a)
  {
  }

  lemma ReturningForward(s: Sys, r: Sys, a: Agent)
    requires Go(s, r, a) && HasSlot(s.agents[a])
    ensures GoesForward(s, r, a)
  {
  }

  lemma ExecutionForward(s: Sys, r: Sys, a: Agent)
    requires Go(s, r, a) && IsExecution(s.agents[a])
    ensures GoesForward(s, r, a)
  {
  }

  lemma ReleasingForward(s: Sys, r: Sys, a: Agent)
    requires Go(s, r, a) && IsReleasing(s.agents[a])
    ensures GoesForward(s, r, a)
  {
  }

  lemma QueryForward(s: Sys, r: Sys, a: Agent)
    requires Go(s, r, a) && IsQuery(s.agents[a]) && !Polling(s.agents[a])
    ensures GoesForward(s, r, a)
  {
  }

  /** Every call goes forward with every access of its own, whatever others do meanwhile. */
  lemma CallGoesForward(run: seq<Sys>, n: nat, r: Sys, a: Agent)
    requires Run(run) && n < |run| && Step(run[n], r, a, Goes) && a in run[n].agents && !Polling(run[n].agents[a])
    ensures GoesForward(run[n], r, a)
  {
    hide Inv, Go, GoesForward;
    RunKeepsInv(run, n);
    var s := run[n];
    var pc := s.agents[a];
    CountedWaits(s, r, a);
    if IsOpening(pc) { OpeningForward(s, r, a); }
    else if pc.Scanning? || pc.Resolved? || pc.Unregistered? { AssemblingForward(s, r, a); }
    else if pc.Zeroed? || pc.Enqueuing? || pc.Settling? { PublishingForward(s, r, a); }
    else if HasSlot(pc) { ReturningForward(s, r, a); }
    else if IsExecution(pc) { ExecutionForward(s, r, a); }
    else if IsReleasing(pc) { ReleasingForward(s, r, a); }
    else { QueryForward(s, r, a); }
  }
}
