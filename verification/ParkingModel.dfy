/**
 Parking of idle workers in the WorkStealing and PriorityAging modes: the sleeping-counter
 handshake between `park_worker`, with its check that is not atomic, and `wake_one_worker`.
 One step is one atomic access, one operation on a deque, on the locked global queue, on the
 sleep mutex or on its condition variable. Queues are counts here: which handle is where is
 the subject of Dispatch.
 */
module ParkingModel {

  type WorkerId = nat
  type Agent = nat

  /** Where a thread is in `wake_one_worker`; `Settled` is not in it. */
  datatype Waker = Settled | ToLoad | ToLock | ToUnlock | ToNotify

  datatype Pc =
    | Active(waker: Waker)
    // park_worker
    | Entering
    | Registering
    | CheckingRunning
    | CheckingGlobal
    | Scanning(next: WorkerId)
    | Withdrawing
    | Unlocking
    | Dozing
    | Asleep(notified: bool)
    | Waking
    | Woken
    // the loop has ended
    | Exited

  /** One worker: the handles in its deques, the handles it has taken and not yet run, its position. */
  datatype Worker = Worker(deque: nat, hands: nat, pc: Pc)

  /** Where the destructor is. */
  datatype Stopper = NotStopping | ToLockAll | ToNotifyAll | Stopped

  datatype Mutex = Unlocked | ByWorker(worker: WorkerId) | ByOutsider(agent: Agent) | ByStopper

  datatype Sys = Sys(
    workers: seq<Worker>,
    outsiders: map<Agent, Waker>,
    global: nat,
    sleeping: int,
    mutex: Mutex,
    running: bool,
    stopper: Stopper
  )

  function SetWorker(s: Sys, w: WorkerId, worker: Worker): Sys
    requires w < |s.workers|
  { s.(workers := s.workers[w := worker]) }

  function SetPc(s: Sys, w: WorkerId, pc: Pc): Sys
    requires w < |s.workers|
  { SetWorker(s, w, s.workers[w].(pc := pc)) }

  /** What a worker does outside `park_worker` and `wake_one_worker`. */
  datatype Deed =
    | TakeOwn
    | TakeGlobal
    | Steal(victim: WorkerId)
    | KeepExtra
    | PutBack
    | RunOne
    | EnqueueOwn
    | EnqueueGlobal
    | Park
    | Exit

  ghost predicate Work(s: Sys, r: Sys, w: WorkerId, deed: Deed) {
    && w < |s.workers| && s.workers[w].pc == Active(Settled)
    && var worker := s.workers[w];
       match deed
       case TakeOwn => worker.deque > 0 && r == SetWorker(s, w, worker.(deque := worker.deque - 1, hands := worker.hands + 1))
       case TakeGlobal =>
         s.global > 0 && r == SetWorker(s, w, worker.(hands := worker.hands + 1)).(global := s.global - 1)
       case Steal(v) =>
         && v < |s.workers| && v != w && s.workers[v].deque > 0
         && r == SetWorker(SetWorker(s, v, s.workers[v].(deque := s.workers[v].deque - 1)),
                           w, worker.(hands := worker.hands + 1))
       case KeepExtra =>
         worker.hands > 0 && r == SetWorker(s, w, worker.(deque := worker.deque + 1, hands := worker.hands - 1))
       case PutBack =>
         worker.hands > 0 && r == SetWorker(s, w, worker.(hands := worker.hands - 1)).(global := s.global + 1)
       case RunOne => worker.hands > 0 && r == SetWorker(s, w, worker.(hands := worker.hands - 1))
       case EnqueueOwn => r == SetWorker(s, w, worker.(deque := worker.deque + 1, pc := Active(ToLoad)))
       case EnqueueGlobal => r == SetPc(s, w, Active(ToLoad)).(global := s.global + 1)
       case Park => worker.hands == 0 && r == SetPc(s, w, Entering)
       case Exit => worker.hands == 0 && !s.running && r == SetPc(s, w, Exited)
  }

  /** `notify_one`: some thread in `wait` is released, if there is one. */
  ghost predicate NotifyOne(workers: seq<Worker>, after: seq<Worker>) {
    || (after == workers && forall v | 0 <= v < |workers| :: workers[v].pc != Asleep(false))
    || (exists v :: 0 <= v < |workers| && workers[v].pc == Asleep(false)
                    && after == workers[v := workers[v].(pc := Asleep(true))])
  }

  /** `wake_one_worker`: the waker goes on, the mutex and the workers may change. */
  ghost predicate Wake(s: Sys, waker: Waker, next: Waker, me: Mutex, mutex: Mutex, after: seq<Worker>) {
    match waker
    case Settled => false
    case ToLoad => next == (if s.sleeping == 0 then Settled else ToLock) && mutex == s.mutex && after == s.workers
    case ToLock => s.mutex.Unlocked? && next == ToUnlock && mutex == me && after == s.workers
    case ToUnlock => next == ToNotify && mutex == Unlocked && after == s.workers
    case ToNotify => next == Settled && mutex == s.mutex && NotifyOne(s.workers, after)
  }

  ghost predicate WorkerWakes(s: Sys, r: Sys, w: WorkerId, next: Waker, after: seq<Worker>) {
    && w < |s.workers| && s.workers[w].pc.Active? && |after| == |s.workers|
    && Wake(s, s.workers[w].pc.waker, next, ByWorker(w), r.mutex, after)
    && r == SetPc(s.(workers := after), w, Active(next)).(mutex := r.mutex)
  }

  /** A thread that is no worker publishes a handle, and goes on to wake somebody. */
  ghost predicate Publish(s: Sys, r: Sys, a: Agent) {
    a !in s.outsiders && r == s.(global := s.global + 1, outsiders := s.outsiders[a := ToLoad])
  }

  ghost predicate OutsiderWakes(s: Sys, r: Sys, a: Agent, next: Waker, after: seq<Worker>) {
    && a in s.outsiders
    && Wake(s, s.outsiders[a], next, ByOutsider(a), r.mutex, after)
    && r == s.(workers := after, mutex := r.mutex,
               outsiders := if next.Settled? then s.outsiders - {a} else s.outsiders[a := next])
  }

  /**
   `park_worker`. The scan looks at one worker's deques at a time. Its own it sees as they
   are; another worker in the middle of popping its last handle can look empty, so of a
   worker that is not in `wait` the scan may believe either.
   */
  ghost predicate Parking(s: Sys, r: Sys, w: WorkerId) {
    && w < |s.workers|
    && match s.workers[w].pc
       case Active(_) => false
       case Entering => s.mutex.Unlocked? && r == SetPc(s, w, Registering).(mutex := ByWorker(w))
       case Registering => r == SetPc(s, w, CheckingRunning).(sleeping := s.sleeping + 1)
       case CheckingRunning => r == SetPc(s, w, if s.running then CheckingGlobal else Withdrawing)
       case CheckingGlobal => r == SetPc(s, w, if s.global > 0 then Withdrawing else Scanning(0))
       case Scanning(v) =>
         if v >= |s.workers| then r == SetPc(s, w, Dozing)
         else if s.workers[v].deque > 0 && (v == w || s.workers[v].pc.Asleep?) then r == SetPc(s, w, Withdrawing)
         else || r == SetPc(s, w, Scanning(v + 1))
              || (s.workers[v].deque > 0 && r == SetPc(s, w, Withdrawing))
       case Withdrawing => r == SetPc(s, w, Unlocking).(sleeping := s.sleeping - 1)
       case Unlocking => r == SetPc(s, w, Active(Settled)).(mutex := Unlocked)
       case Dozing => r == SetPc(s, w, Asleep(false)).(mutex := Unlocked)
       case Asleep(_) => r == SetPc(s, w, Waking)
       case Waking => s.mutex.Unlocked? && r == SetPc(s, w, Woken).(mutex := ByWorker(w))
       case Woken => r == SetPc(s, w, Unlocking).(sleeping := s.sleeping - 1)
       case Exited => false
  }

  function NotifiedPc(pc: Pc): Pc { if pc.Asleep? then Asleep(true) else pc }

  /** The destructor: `running_` off, then `notify_all` under the mutex. */
  ghost predicate Stopping(s: Sys, r: Sys) {
    match s.stopper
    case NotStopping => r == s.(running := false, stopper := ToLockAll)
    case ToLockAll => s.mutex.Unlocked? && r == s.(mutex := ByStopper, stopper := ToNotifyAll)
    case ToNotifyAll =>
      r == s.(mutex := Unlocked, stopper := Stopped,
              workers := seq(|s.workers|, i requires 0 <= i < |s.workers| => s.workers[i].(pc := NotifiedPc(s.workers[i].pc))))
    case Stopped => false
  }

  ghost predicate Next(s: Sys, r: Sys) {
    || (exists w: WorkerId, deed: Deed :: Work(s, r, w, deed))
    || (exists w: WorkerId, next: Waker, after: seq<Worker> :: WorkerWakes(s, r, w, next, after))
    || (exists a: Agent :: Publish(s, r, a))
    || (exists a: Agent, next: Waker, after: seq<Worker> :: OutsiderWakes(s, r, a, next, after))
    || (exists w: WorkerId :: Parking(s, r, w))
    || Stopping(s, r)
  }

  /** All queues empty, every worker about to look for work; at least one worker. */
  ghost predicate Init(s: Sys) {
    && |s.workers| > 0 && (forall w | 0 <= w < |s.workers| :: s.workers[w] == Worker(0, 0, Active(Settled)))
    && s.outsiders == map[] && s.global == 0 && s.sleeping == 0 && s.mutex == Unlocked
    && s.running && s.stopper == NotStopping
  }

  ghost predicate Follows(run: seq<Sys>, i: nat)
    requires 0 < i < |run|
  {
    Next(run[i - 1], run[i])
  }

  ghost predicate Run(run: seq<Sys>) {
    && run != [] && Init(run[0])
    && forall i | 0 < i < |run| :: Follows(run, i)
  }
}
