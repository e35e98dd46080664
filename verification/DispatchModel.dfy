/**
 Dispatch in the Thunderbolt runtime: what happens to a handle between `enqueue_ready` and the
 worker that executes it. One step is one operation on a deque, on the locked global queue or
 on a locked inbox; the deques are the indexed sequences that DequeMachine shows them to be.

 An entry is one call of `enqueue_ready`, named by its number. `entries` is history: it says
 where each entry is, and no step looks at it.
 */
module DispatchModel {
  import opened Basics
  import opened ReadyQueues

  type Thread = nat
  type Worker = nat

  const GLOBAL_DRAIN_BATCH := 32

  datatype QueueId = Deque(worker: Worker, priority: nat) | Inbox(worker: Worker, priority: nat) | Global(priority: nat)

  datatype Place =
    | Arriving(thread: Thread)
    | In(queue: QueueId)
    | Carried(thread: Thread)
    | Taken(thread: Thread)

  datatype Entry = Entry(priority: nat, place: Place)

  datatype Pc =
    // enqueue_ready
    | Enqueuing(entry: nat, priority: nat)
    | Targeting(entry: nat, priority: nat, target: Worker)
    | Spilling(entry: nat, priority: nat)
    // pop_local, at its look number `next`
    | Looking(next: nat)
    // steal_from_others, at look number `next` at the victim `offset` places after `start`
    | Stealing(start: nat, offset: nat, next: nat)
    // drain_global
    | Draining(first: nat, taken: nat)
    | Moving(first: nat, taken: nat, extra: nat, priority: nat)
    | PuttingBack(first: nat, extra: nat, priority: nat)
    // acquire_next is about to return this handle
    | Returning(entry: nat)

  /** Threads with a number below `workers` are the workers. */
  datatype Config = Config(mode: SchedulerMode, workers: nat, capacity: nat)

  /**
   `pops` is each worker's `pop_index`, `cursor` the round-robin counter of the static mode.
   `stamps` is history too: when each entry was last put into a queue.
   */
  datatype Sys = Sys(
    queues: map<QueueId, seq<nat>>, threads: map<Thread, Pc>, entries: seq<Entry>,
    pops: map<Worker, nat>, cursor: nat, stamps: map<nat, nat>, clock: nat)

  function Queue(s: Sys, q: QueueId): seq<nat> { if q in s.queues then s.queues[q] else [] }

  function SetQueue(s: Sys, q: QueueId, list: seq<nat>): Sys { s.(queues := s.queues[q := list]) }

  function SetPc(s: Sys, t: Thread, pc: Pc): Sys { s.(threads := s.threads[t := pc]) }

  function Leave(s: Sys, t: Thread): Sys { s.(threads := s.threads - {t}) }

  function Note(s: Sys, e: nat, place: Place): (r: Sys)
    ensures r == s.(entries := r.entries) && |r.entries| == |s.entries|
  {
    if e < |s.entries| then s.(entries := s.entries[e := s.entries[e].(place := place)]) else s
  }

  function PopIndex(s: Sys, w: Worker): nat { if w in s.pops then s.pops[w] else 0 }

  function CountPop(s: Sys, w: Worker): Sys { s.(pops := s.pops[w := PopIndex(s, w) + 1]) }

  /** This pop of worker `w` scans from the lowest priority up. */
  predicate FavoursLowest(c: Config, s: Sys, w: Worker) { AgingPopFavoursLowest(c.mode, PopIndex(s, w)) }

  /** Append to a queue. */
  function Put(s: Sys, q: QueueId, e: nat): Sys {
    Note(SetQueue(s, q, Queue(s, q) + [e]), e, In(q)).(stamps := s.stamps[e := s.clock], clock := s.clock + 1)
  }

  /** Remove the entry at one end of a queue into a thread's hands. */
  function Pull(s: Sys, t: Thread, q: QueueId, back: bool): Sys
    requires Queue(s, q) != []
  {
    var list := Queue(s, q);
    if back then Note(SetQueue(s, q, list[..|list| - 1]), list[|list| - 1], Carried(t))
    else Note(SetQueue(s, q, list[1..]), list[0], Carried(t))
  }

  function End(list: seq<nat>, back: bool): nat
    requires list != []
  { if back then list[|list| - 1] else list[0] }

  /** `p` is what a locked scan over the queues `of(0)` to `of(4)` settles on. */
  ghost predicate Settles(s: Sys, of: nat -> QueueId, p: nat, lowestFirst: bool) {
    && p < PRIORITY_COUNT && Queue(s, of(p)) != []
    && forall o: nat | o < PRIORITY_COUNT && (if lowestFirst then o > p else o < p) :: Queue(s, of(o)) == []
  }

  function InboxOf(w: Worker): nat -> QueueId { (p: nat) => Inbox(w, p) }

  function GlobalOf(): nat -> QueueId { (p: nat) => Global(p) }

  ghost predicate AllEmpty(s: Sys, of: nat -> QueueId) { forall o: nat | o < PRIORITY_COUNT :: Queue(s, of(o)) == [] }

  datatype Action =
    // enqueue_ready
    | Submit(priority: nat)
    | PickTarget
    | ToInbox
    | ToDeque
    | ToGlobal
    // acquire_next
    | PopInbox(priority: nat)
    | InboxEmpty
    | PopAging(priority: nat)
    | BeginLooking
    | LookOwn
    | DrainFirst(priority: nat)
    | GlobalEmpty(start: nat)
    | Steal
    | MissSteal
    | DrainMore(priority: nat)
    | DrainStop
    | KeepExtra
    | PutBack
    | Return

  ghost predicate Step(c: Config, s: Sys, r: Sys, t: Thread, action: Action) {
    match action
    case Submit(p) =>
      && t !in s.threads && p < PRIORITY_COUNT
      && r == SetPc(s.(entries := s.entries + [Entry(p, Arriving(t))]), t, Enqueuing(|s.entries|, p))
    case PickTarget =>
      && c.mode.Static? && c.workers > 0 && t in s.threads && s.threads[t].Enqueuing?
      && r == SetPc(s, t, Targeting(s.threads[t].entry, s.threads[t].priority, s.cursor % c.workers)).(cursor := s.cursor + 1)
    case ToInbox =>
      && t in s.threads && s.threads[t].Targeting?
      && r == Leave(Put(s, Inbox(s.threads[t].target, s.threads[t].priority), s.threads[t].entry), t)
    case ToDeque =>
      && !c.mode.Static? && t < c.workers && t in s.threads && s.threads[t].Enqueuing?
      && var Enqueuing(e, p) := s.threads[t];
         r == if |Queue(s, Deque(t, p))| < c.capacity then Leave(Put(s, Deque(t, p), e), t) else SetPc(s, t, Spilling(e, p))
    case ToGlobal =>
      && !c.mode.Static? && t in s.threads && (s.threads[t].Spilling? || (s.threads[t].Enqueuing? && t >= c.workers))
      && r == Leave(Put(s, Global(s.threads[t].priority), s.threads[t].entry), t)
    case PopInbox(p) =>
      && c.mode.Static? && t < c.workers && t !in s.threads && Settles(s, InboxOf(t), p, FavoursLowest(c, s, t))
      && r == SetPc(CountPop(Pull(s, t, Inbox(t, p), false), t), t, Returning(Queue(s, Inbox(t, p))[0]))
    case InboxEmpty => c.mode.Static? && t < c.workers && t !in s.threads && AllEmpty(s, InboxOf(t)) && r == s
    case PopAging(p) =>
      && !c.mode.Static? && FavoursLowest(c, s, t) && t < c.workers && t !in s.threads && Settles(s, GlobalOf(), p, true)
      && r == SetPc(CountPop(Pull(s, t, Global(p), false), t), t, Returning(Queue(s, Global(p))[0]))
    case BeginLooking =>
      && !c.mode.Static? && t < c.workers && t !in s.threads && (FavoursLowest(c, s, t) ==> AllEmpty(s, GlobalOf()))
      && r == SetPc(s, t, Looking(0))
    case LookOwn =>
      && t in s.threads && s.threads[t].Looking? && s.threads[t].next < PRIORITY_COUNT
      && var q := Deque(t, Scan(s.threads[t].next, FavoursLowest(c, s, t)));
         r == if Queue(s, q) == [] then SetPc(s, t, Looking(s.threads[t].next + 1))
              else SetPc(CountPop(Pull(s, t, q, true), t), t, Returning(End(Queue(s, q), true)))
    case DrainFirst(p) =>
      && t in s.threads && s.threads[t] == Looking(PRIORITY_COUNT) && Settles(s, GlobalOf(), p, FavoursLowest(c, s, t))
      && r == SetPc(CountPop(Pull(s, t, Global(p), false), t), t, Draining(Queue(s, Global(p))[0], 1))
    case GlobalEmpty(start) =>
      && t in s.threads && s.threads[t] == Looking(PRIORITY_COUNT) && AllEmpty(s, GlobalOf()) && start < c.workers
      && r == if c.workers <= 1 then Leave(s, t) else SetPc(s, t, Stealing(start, 0, 0))
    case Steal =>
      && t in s.threads && s.threads[t].Stealing? && s.threads[t].next < PRIORITY_COUNT && c.workers > 0
      && var Stealing(start, offset, p) := s.threads[t];
         var v := (start + offset) % c.workers;
         && offset < c.workers && v != t && Queue(s, Deque(v, p)) != []
         && r == SetPc(Pull(s, t, Deque(v, p), false), t, Returning(Queue(s, Deque(v, p))[0]))
    // An empty deque, or a race lost to somebody who took what this thief was after.
    case MissSteal =>
      && t in s.threads && s.threads[t].Stealing? && c.workers > 0
      && var Stealing(start, offset, p) := s.threads[t];
         r == if offset >= c.workers then Leave(s, t)
              else if (start + offset) % c.workers == t || p >= PRIORITY_COUNT then SetPc(s, t, Stealing(start, offset + 1, 0))
              else SetPc(s, t, Stealing(start, offset, p + 1))
    case DrainMore(p) =>
      && t in s.threads && s.threads[t].Draining? && s.threads[t].taken < GLOBAL_DRAIN_BATCH
      && Settles(s, GlobalOf(), p, false)
      && r == SetPc(Pull(s, t, Global(p), false), t,
                    Moving(s.threads[t].first, s.threads[t].taken, Queue(s, Global(p))[0], p))
    case DrainStop =>
      && t in s.threads && s.threads[t].Draining?
      && (s.threads[t].taken >= GLOBAL_DRAIN_BATCH || AllEmpty(s, GlobalOf()))
      && r == SetPc(s, t, Returning(s.threads[t].first))
    case KeepExtra =>
      && t in s.threads && s.threads[t].Moving?
      && var Moving(first, taken, e, p) := s.threads[t];
         r == if |Queue(s, Deque(t, p))| < c.capacity then SetPc(Put(s, Deque(t, p), e), t, Draining(first, taken + 1))
              else SetPc(s, t, PuttingBack(first, e, p))
    case PutBack =>
      && t in s.threads && s.threads[t].PuttingBack?
      && var PuttingBack(first, e, p) := s.threads[t];
         r == SetPc(Put(s, Global(p), e), t, Returning(first))
    case Return =>
      && t in s.threads && s.threads[t].Returning?
      && r == Leave(Note(s, s.threads[t].entry, Taken(t)), t)
  }

  ghost predicate Next(c: Config, s: Sys, r: Sys) {
    exists t: Thread, action: Action :: Step(c, s, r, t, action)
  }

  ghost predicate Init(s: Sys) { s == Sys(map[], map[], [], map[], 0, map[], 0) }

  ghost predicate Follows(c: Config, run: seq<Sys>, i: nat)
    requires 0 < i < |run|
  {
    Next(c, run[i - 1], run[i])
  }

  ghost predicate Run(c: Config, run: seq<Sys>) {
    && run != [] && Init(run[0])
    && forall i | 0 < i < |run| :: Follows(c, run, i)
  }

  // --------------------------------------------------------------- invariant

  function PriorityOf(q: QueueId): nat { q.priority }

  /** Queue `q` lists entries that are there, once each, all of the queue's priority. */
  predicate Lists(entries: seq<Entry>, list: seq<nat>, q: QueueId) {
    && Distinct(list)
    && forall e | e in list :: e < |entries| && entries[e] == Entry(PriorityOf(q), In(q))
  }

  /** What a thread at `pc` has in its hands, besides what it is submitting. */
  function Hands(pc: Pc): seq<nat> {
    match pc
    case Enqueuing(_, _) => []
    case Targeting(_, _, _) => []
    case Spilling(_, _) => []
    case Looking(_) => []
    case Stealing(_, _, _) => []
    case Draining(first, _) => [first]
    case Moving(first, _, extra, _) => [first, extra]
    case PuttingBack(first, extra, _) => [first, extra]
    case Returning(e) => [e]
  }

  predicate IsSubmitting(pc: Pc) { pc.Enqueuing? || pc.Targeting? || pc.Spilling? }

  function Submitting(pc: Pc): seq<nat> { if IsSubmitting(pc) then [pc.entry] else [] }

  predicate PcOk(entries: seq<Entry>, t: Thread, pc: Pc) {
    && Distinct(Hands(pc))
    && (forall e | e in Hands(pc) :: e < |entries| && entries[e].place == Carried(t))
    && (IsSubmitting(pc) ==> pc.entry < |entries| && entries[pc.entry] == Entry(pc.priority, Arriving(t)))
    && (pc.Moving? || pc.PuttingBack? ==> pc.extra < |entries| && entries[pc.extra].priority == pc.priority)
  }

  ghost predicate EntryOk(s: Sys, e: nat)
    requires e < |s.entries|
  {
    match s.entries[e].place
    case Arriving(t) => t in s.threads && e in Submitting(s.threads[t])
    case In(q) => e in Queue(s, q)
    case Carried(t) => t in s.threads && e in Hands(s.threads[t])
    case Taken(_) => true
  }

  ghost predicate Inv(s: Sys) {
    && (forall q: QueueId :: Lists(s.entries, Queue(s, q), q))
    && (forall t | t in s.threads :: PcOk(s.entries, t, s.threads[t]))
    && (forall e | 0 <= e < |s.entries| :: EntryOk(s, e))
  }
}
