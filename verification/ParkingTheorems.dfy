/** No wakeup is lost: the invariant of the parking handshake and what follows from it. */
module ParkingTheorems {
  import opened ParkingModel

  // --------------------------------------------------------------- invariant

  /** Between adding itself to `sleeping_` and taking itself off. */
  predicate CountsAsSleeping(pc: Pc) {
    || pc.CheckingRunning? || pc.CheckingGlobal? || pc.Scanning? || pc.Withdrawing? || pc.Dozing?
    || pc.Asleep? || pc.Waking? || pc.Woken?
  }

  function CountSleeping(workers: seq<Worker>): (n: nat) {
    if workers == [] then 0
    else CountSleeping(workers[..|workers| - 1]) + if CountsAsSleeping(workers[|workers| - 1].pc) then 1 else 0
  }

  predicate HoldsMutex(pc: Pc) {
    || pc == Active(ToUnlock) || pc.Registering? || pc.CheckingRunning? || pc.CheckingGlobal? || pc.Scanning?
    || pc.Withdrawing? || pc.Unlocking? || pc.Dozing? || pc.Woken?
  }

  /** The worker has found its own deques empty and has not been able to push since. */
  predicate FoundOwnEmpty(w: WorkerId, pc: Pc) {
    (pc.Scanning? && pc.next > w) || pc.Dozing? || pc.Asleep? || pc.Waking? || pc.Woken?
  }

  /** It has found the global queue empty and is on its way into `wait`. */
  predicate FoundGlobalEmpty(pc: Pc) { pc.Scanning? || pc.Dozing? }

  /** In `wake_one_worker`, with the mutex still to be taken. */
  predicate BeforeLock(waker: Waker) { waker.ToLoad? || waker.ToLock? }

  ghost predicate SomeoneElseUp(s: Sys, w: WorkerId) {
    exists v :: 0 <= v < |s.workers| && v != w && s.workers[v].pc != Asleep(false)
  }

  ghost predicate SomeoneWillLock(s: Sys) {
    exists a :: a in s.outsiders && BeforeLock(s.outsiders[a])
  }

  ghost predicate WorkerOk(s: Sys, w: WorkerId)
    requires w < |s.workers|
  {
    var pc := s.workers[w].pc;
    && (HoldsMutex(pc) ==> s.mutex == ByWorker(w))
    && (FoundOwnEmpty(w, pc) ==> s.workers[w].deque == 0)
    && (FoundGlobalEmpty(pc) && s.global > 0 ==> SomeoneWillLock(s) || SomeoneElseUp(s, w))
    && ((FoundGlobalEmpty(pc) || pc.CheckingGlobal? || pc == Asleep(false)) && !s.running ==>
          s.stopper.ToLockAll? || (pc.Asleep? && s.stopper.ToNotifyAll?))
  }

  ghost predicate WorkersOk(s: Sys) { forall w | 0 <= w < |s.workers| :: WorkerOk(s, w) }

  ghost predicate OutsidersOk(s: Sys) {
    forall a | a in s.outsiders ::
      s.outsiders[a] != Settled && (s.outsiders[a] == ToUnlock ==> s.mutex == ByOutsider(a))
  }

  predicate StopperOk(s: Sys) {
    (s.running <==> s.stopper.NotStopping?) && (s.stopper.ToNotifyAll? ==> s.mutex == ByStopper)
  }

  /** Whoever holds the sleep mutex is at a point from which it will release it. */
  predicate MutexOk(s: Sys) {
    match s.mutex
    case Unlocked => true
    case ByWorker(w) => w < |s.workers| && HoldsMutex(s.workers[w].pc)
    case ByOutsider(a) => a in s.outsiders && s.outsiders[a] == ToUnlock
    case ByStopper => s.stopper.ToNotifyAll?
  }

  /** Every worker is in `wait`, and nobody has notified any of them. */
  ghost predicate AllParked(s: Sys) { forall w | 0 <= w < |s.workers| :: s.workers[w].pc == Asleep(false) }

  ghost predicate CoveredOk(s: Sys) { AllParked(s) && s.global > 0 ==> s.outsiders != map[] }

  ghost predicate Inv(s: Sys) {
    && |s.workers| > 0 && s.sleeping == CountSleeping(s.workers)
    && WorkersOk(s) && OutsidersOk(s) && StopperOk(s) && MutexOk(s) && CoveredOk(s)
  }

  lemma {:induction false} SleepingOne(workers: seq<Worker>, w: WorkerId, worker: Worker)
    requires w < |workers|
    ensures CountSleeping(workers[w := worker]) ==
      CountSleeping(workers) - (if CountsAsSleeping(workers[w].pc) then 1 else 0) + if CountsAsSleeping(worker.pc) then 1 else 0
    ensures CountSleeping(workers) >= if CountsAsSleeping(workers[w].pc) then 1 else 0
  {
    var n := |workers| - 1;
    assert workers[w := worker][..n] == if w < n then workers[..n][w := worker] else workers[..n];
    if w < n { SleepingOne(workers[..n], w, worker); }
  }

  lemma {:induction false} SleepingSame(workers: seq<Worker>, after: seq<Worker>)
    requires |after| == |workers|
    requires forall v | 0 <= v < |workers| :: CountsAsSleeping(after[v].pc) == CountsAsSleeping(workers[v].pc)
    ensures CountSleeping(after) == CountSleeping(workers)
  {
    if workers != [] {
      var n := |workers| - 1;
      assert forall v | 0 <= v < n :: CountsAsSleeping(after[..n][v].pc) == CountsAsSleeping(workers[..n][v].pc);
      SleepingSame(workers[..n], after[..n]);
    }
  }

  // ------------------------------------------------------------------- steps

  predicate StaysOrNotified(x: Worker, y: Worker) { y == x || (x.pc.Asleep? && y == x.(pc := Asleep(true))) }

  lemma WorkerStays(s: Sys, r: Sys, v: WorkerId)
    requires v < |s.workers| && v < |r.workers| && WorkerOk(s, v) && StaysOrNotified(s.workers[v], r.workers[v])
    requires HoldsMutex(s.workers[v].pc) ==> r.mutex == s.mutex
    requires FoundGlobalEmpty(s.workers[v].pc) && r.global > 0 ==> SomeoneWillLock(r) || SomeoneElseUp(r, v)
    requires r.running == s.running && r.stopper == s.stopper
    ensures WorkerOk(r, v)
  {
  }

  /** Something was stolen from a worker. */
  lemma RobbedStays(s: Sys, r: Sys, v: WorkerId)
    requires v < |s.workers| && v < |r.workers| && WorkerOk(s, v) && s.workers[v].deque > 0
    requires r.workers[v] == s.workers[v].(deque := s.workers[v].deque - 1)
    requires r.mutex == s.mutex && r.running == s.running && r.stopper == s.stopper && SomeoneElseUp(r, v)
    ensures WorkerOk(r, v)
  {
  }

  lemma ActiveOk(s: Sys, w: WorkerId)
    requires w < |s.workers| && s.workers[w].pc.Active? && (s.workers[w].pc.waker.ToUnlock? ==> s.mutex == ByWorker(w))
    ensures WorkerOk(s, w)
  {
  }

  lemma UpCovers(s: Sys, v: WorkerId, w: WorkerId)
    requires w < |s.workers| && v != w && s.workers[w].pc != Asleep(false)
    ensures SomeoneElseUp(s, v)
  {
  }

  /** What a worker leaves alone while it takes, keeps, enqueues or runs handles. */
  lemma WorkEffect(s: Sys, r: Sys, w: WorkerId, deed: Deed)
    requires Work(s, r, w, deed) && !deed.Park? && !deed.Exit?
    ensures w < |s.workers| == |r.workers| && s.workers[w].pc == Active(Settled)
    ensures r.workers[w].pc == Active(Settled) || r.workers[w].pc == Active(ToLoad)
    ensures r == s.(workers := r.workers, global := r.global)
    ensures forall v | 0 <= v < |s.workers| && v != w ::
      r.workers[v] == s.workers[v]
      || (s.workers[v].deque > 0 && r.workers[v] == s.workers[v].(deque := s.workers[v].deque - 1))
  {
  }

  lemma TakingKeeps(s: Sys, r: Sys, w: WorkerId, deed: Deed)
    requires Inv(s) && Work(s, r, w, deed) && !deed.Park? && !deed.Exit?
    ensures Inv(r)
  {
    hide Work, WorkerOk, SomeoneElseUp, SomeoneWillLock;
    WorkEffect(s, r, w, deed);
    SleepingSame(s.workers, r.workers);
    forall v | 0 <= v < |r.workers| ensures WorkerOk(r, v) {
      if v == w {
        ActiveOk(r, w);
      } else {
        UpCovers(r, v, w);
        if r.workers[v] == s.workers[v] { WorkerStays(s, r, v); } else { RobbedStays(s, r, v); }
      }
    }
    assert r.workers[w].pc != Asleep(false);
  }

  lemma LeavingKeeps(s: Sys, r: Sys, w: WorkerId, deed: Deed)
    requires Inv(s) && Work(s, r, w, deed) && (deed.Park? || deed.Exit?)
    ensures Inv(r)
  {
    SleepingOne(s.workers, w, r.workers[w]);
    assert r.workers[w].pc != Asleep(false);
    forall v | 0 <= v < |r.workers| ensures WorkerOk(r, v) {
      assert WorkerOk(s, v);
      if SomeoneElseUp(s, v) {
        var u :| 0 <= u < |s.workers| && u != v && s.workers[u].pc != Asleep(false);
        assert r.workers[u].pc != Asleep(false);
      }
    }
  }

  /** A worker that moves and is up afterwards takes no cover away from the others. */
  lemma StillUp(s: Sys, r: Sys, w: WorkerId, v: WorkerId)
    requires |r.workers| == |s.workers| && w < |s.workers| && v < |s.workers| && SomeoneElseUp(s, v)
    requires r.workers[w].pc != Asleep(false)
    requires forall u | 0 <= u < |s.workers| && u != w && s.workers[u].pc != Asleep(false) :: r.workers[u].pc != Asleep(false)
    ensures SomeoneElseUp(r, v)
  {
    var u :| 0 <= u < |s.workers| && u != v && s.workers[u].pc != Asleep(false);
    assert r.workers[u].pc != Asleep(false);
  }

  lemma WakeEffect(s: Sys, waker: Waker, next: Waker, me: Mutex, mutex: Mutex, after: seq<Worker>)
    requires Wake(s, waker, next, me, mutex, after)
    ensures |after| == |s.workers| && CountSleeping(after) == CountSleeping(s.workers)
    ensures forall v | 0 <= v < |after| ::
      after[v] == s.workers[v] || (s.workers[v].pc.Asleep? && after[v] == s.workers[v].(pc := Asleep(true)))
  {
    if waker.ToNotify? && after != s.workers {
      var v :| 0 <= v < |s.workers| && s.workers[v].pc == Asleep(false)
                && after == s.workers[v := s.workers[v].(pc := Asleep(true))];
      SleepingOne(s.workers, v, after[v]);
    }
  }

  lemma CoverHolds(s: Sys, v: WorkerId)
    requires v < |s.workers| && WorkerOk(s, v)
    ensures HoldsMutex(s.workers[v].pc) ==> s.mutex == ByWorker(v)
    ensures FoundGlobalEmpty(s.workers[v].pc) && s.global > 0 ==> SomeoneWillLock(s) || SomeoneElseUp(s, v)
  {
  }

  lemma WorkerWakesKeeps(s: Sys, r: Sys, w: WorkerId, next: Waker, after: seq<Worker>)
    requires Inv(s) && WorkerWakes(s, r, w, next, after)
    ensures Inv(r)
  {
    var waker := s.workers[w].pc.waker;
    WakeEffect(s, waker, next, ByWorker(w), r.mutex, after);
    hide Wake, SomeoneElseUp, WorkerOk;
    WakeMutex(s, waker, next, ByWorker(w), r.mutex, after);
    SleepingOne(after, w, r.workers[w]);
    CoverHolds(s, w);
    forall v | 0 <= v < |r.workers| ensures WorkerOk(r, v) {
      CoverHolds(s, v);
      if v == w {
        ActiveOk(r, w);
      } else {
        if SomeoneElseUp(s, v) { StillUp(s, r, w, v); }
        WorkerStays(s, r, v);
      }
    }
    assert r.workers[w].pc != Asleep(false);
  }

  /** What waking does to the mutex. */
  predicate MutexGoesTo(s: Sys, waker: Waker, me: Mutex, mutex: Mutex) {
    match waker
    case ToLock => s.mutex.Unlocked? && mutex == me
    case ToUnlock => mutex == Unlocked
    case _ => mutex == s.mutex
  }

  lemma WakeMutex(s: Sys, waker: Waker, next: Waker, me: Mutex, mutex: Mutex, after: seq<Worker>)
    requires Wake(s, waker, next, me, mutex, after)
    ensures MutexGoesTo(s, waker, me, mutex) && (next.ToUnlock? <==> waker.ToLock?)
    ensures waker.ToLoad? ==> next == (if s.sleeping == 0 then Settled else ToLock)
    ensures next.ToLoad? ==> false
  {
  }

  lemma PublishKeeps(s: Sys, r: Sys, a: Agent)
    requires Inv(s) && Publish(s, r, a)
    ensures Inv(r)
  {
    assert a in r.outsiders && BeforeLock(r.outsiders[a]);
    forall v | 0 <= v < |r.workers| ensures WorkerOk(r, v) {
      assert WorkerOk(s, v);
    }
  }

  lemma OutsiderWakesKeeps(s: Sys, r: Sys, a: Agent, next: Waker, after: seq<Worker>)
    requires Inv(s) && OutsiderWakes(s, r, a, next, after)
    ensures Inv(r)
  {
    var waker := s.outsiders[a];
    WakeEffect(s, waker, next, ByOutsider(a), r.mutex, after);
    hide Wake, SomeoneElseUp, SomeoneWillLock, WorkerOk;
    WakeMutex(s, waker, next, ByOutsider(a), r.mutex, after);
    forall v | 0 <= v < |r.workers| ensures WorkerOk(r, v) {
      CoverHolds(s, v);
      if SomeoneElseUp(s, v) { UpStays(s, r, v); }
      if FoundGlobalEmpty(s.workers[v].pc) && SomeoneWillLock(s) {
        SleepingOne(s.workers, v, s.workers[v]);
        WillLockStays(s, r, a, next);
      }
      WorkerStays(s, r, v);
    }
    assert CoveredOk(r) by {
      if AllParked(r) {
        assert AllParked(s) by { UnparkedStays(s, r); }
        NoParkedNotify(s, waker, next, ByOutsider(a), r.mutex, after);
        SleepingOne(s.workers, 0, s.workers[0]);
      }
    }
  }

  lemma UpStays(s: Sys, r: Sys, v: WorkerId)
    requires |r.workers| == |s.workers| && SomeoneElseUp(s, v)
    requires forall u | 0 <= u < |s.workers| :: StaysOrNotified(s.workers[u], r.workers[u])
    ensures SomeoneElseUp(r, v)
  {
    var u :| 0 <= u < |s.workers| && u != v && s.workers[u].pc != Asleep(false);
    assert StaysOrNotified(s.workers[u], r.workers[u]);
    assert r.workers[u].pc != Asleep(false);
  }

  lemma UnparkedStays(s: Sys, r: Sys)
    requires |r.workers| == |s.workers| && AllParked(r)
    requires forall u | 0 <= u < |s.workers| :: StaysOrNotified(s.workers[u], r.workers[u])
    ensures AllParked(s)
  {
    forall w | 0 <= w < |s.workers| ensures s.workers[w].pc == Asleep(false) {
      assert StaysOrNotified(s.workers[w], r.workers[w]);
    }
  }

  /** While a worker is registered and holds the mutex, an outsider before the lock stays there. */
  lemma WillLockStays(s: Sys, r: Sys, a: Agent, next: Waker)
    requires a in s.outsiders && s.sleeping != 0 && !s.mutex.Unlocked? && SomeoneWillLock(s)
    requires r.outsiders == if next.Settled? then s.outsiders - {a} else s.outsiders[a := next]
    requires s.outsiders[a].ToLoad? ==> next == ToLock
    requires !s.outsiders[a].ToLock?
    ensures SomeoneWillLock(r)
  {
    var b :| b in s.outsiders && BeforeLock(s.outsiders[b]);
    assert b in r.outsiders && BeforeLock(r.outsiders[b]);
  }

  /** If every worker is parked, `notify_one` releases one of them. */
  lemma NoParkedNotify(s: Sys, waker: Waker, next: Waker, me: Mutex, mutex: Mutex, after: seq<Worker>)
    requires Wake(s, waker, next, me, mutex, after) && AllParked(s) && |s.workers| > 0
    ensures waker.ToNotify? ==> exists v :: 0 <= v < |after| && after[v].pc == Asleep(true)
    ensures !waker.ToNotify? && !(waker.ToLoad? && s.sleeping == 0) ==> !next.Settled?
  {
    if waker.ToNotify? {
      assert s.workers[0].pc == Asleep(false);
      var v :| 0 <= v < |s.workers| && s.workers[v].pc == Asleep(false)
                && after == s.workers[v := s.workers[v].(pc := Asleep(true))];
      assert after[v].pc == Asleep(true);
    }
  }

  predicate IsLooking(pc: Pc) { pc.CheckingRunning? || pc.CheckingGlobal? || pc.Scanning? }

  lemma LookingOk(s: Sys, r: Sys, w: WorkerId)
    requires Inv(s) && Parking(s, r, w) && IsLooking(s.workers[w].pc)
    ensures WorkerOk(r, w)
  {
    hide SomeoneElseUp, SomeoneWillLock, OutsidersOk, MutexOk, CoveredOk;
    assert WorkerOk(s, w);
    assert r.workers[w].pc != Asleep(false);
    if SomeoneElseUp(s, w) { StillUp(s, r, w, w); }
    if SomeoneWillLock(s) { WillLockSame(s, r); }
  }

  lemma OwnParkingOk(s: Sys, r: Sys, w: WorkerId)
    requires Inv(s) && Parking(s, r, w) && !s.workers[w].pc.Dozing?
    ensures WorkerOk(r, w)
  {
    if IsLooking(s.workers[w].pc) {
      LookingOk(s, r, w);
    } else {
      hide SomeoneElseUp, SomeoneWillLock, OutsidersOk, MutexOk, CoveredOk;
      assert WorkerOk(s, w);
    }
  }

  /** What a step of `park_worker` leaves alone. */
  lemma ParkingEffect(s: Sys, r: Sys, w: WorkerId)
    requires Parking(s, r, w)
    ensures w < |s.workers| == |r.workers| && r.workers == s.workers[w := r.workers[w]]
    ensures r.outsiders == s.outsiders && r.global == s.global && r.running == s.running && r.stopper == s.stopper
    ensures r.mutex == s.mutex || (s.mutex.Unlocked? && r.mutex == ByWorker(w))
      || (HoldsMutex(s.workers[w].pc) && r.mutex == Unlocked)
    ensures r.workers[w].pc == Asleep(false) <==> s.workers[w].pc.Dozing?
    ensures r.sleeping - One(CountsAsSleeping(r.workers[w].pc)) == s.sleeping - One(CountsAsSleeping(s.workers[w].pc))
  {
  }

  function One(b: bool): int { if b then 1 else 0 }

  /** The steps of `park_worker` itself, but for the last one into `wait`. */
  lemma ParkingStepKeeps(s: Sys, r: Sys, w: WorkerId)
    requires Inv(s) && Parking(s, r, w) && !s.workers[w].pc.Dozing?
    ensures Inv(r)
  {
    ParkingEffect(s, r, w);
    OwnParkingOk(s, r, w);
    SleepingOne(s.workers, w, r.workers[w]);
    hide SomeoneElseUp, SomeoneWillLock, Parking, WorkerOk;
    CoverHolds(s, w);
    forall v | 0 <= v < |r.workers| ensures WorkerOk(r, v) {
      if v != w {
        CoverHolds(s, v);
        if SomeoneElseUp(s, v) { StillUp(s, r, w, v); }
        if SomeoneWillLock(s) { WillLockSame(s, r); }
        WorkerStays(s, r, v);
      }
    }
  }

  lemma WillLockSame(s: Sys, r: Sys)
    requires SomeoneWillLock(s) && r.outsiders == s.outsiders
    ensures SomeoneWillLock(r)
  {
  }

  lemma FallAsleepKeeps(s: Sys, r: Sys, w: WorkerId)
    requires Inv(s) && Parking(s, r, w) && s.workers[w].pc.Dozing?
    ensures Inv(r)
  {
    SleepingOne(s.workers, w, r.workers[w]);
    assert WorkerOk(s, w);
    assert CoveredOk(r) by {
      if SomeoneElseUp(s, w) {
        var u :| 0 <= u < |s.workers| && u != w && s.workers[u].pc != Asleep(false);
        assert r.workers[u].pc != Asleep(false);
      }
    }
    hide SomeoneElseUp, SomeoneWillLock;
    forall v | 0 <= v < |r.workers| ensures WorkerOk(r, v) {
      assert WorkerOk(s, v);
    }
  }

  lemma StoppingKeeps(s: Sys, r: Sys)
    requires Inv(s) && Stopping(s, r)
    ensures Inv(r)
  {
    SleepingSame(s.workers, r.workers);
    assert s.stopper.ToNotifyAll? ==> WorkerOk(s, 0) && r.workers[0].pc != Asleep(false);
    forall v | 0 <= v < |r.workers| ensures WorkerOk(r, v) {
      assert WorkerOk(s, v);
    }
  }

  lemma StepKeepsInv(s: Sys, r: Sys)
    requires Inv(s) && Next(s, r)
    ensures Inv(r)
  {
    hide Inv, Work, WorkerWakes, Publish, OutsiderWakes, Parking, Stopping;
    if w: WorkerId, deed: Deed :| Work(s, r, w, deed) {
      if deed.Park? || deed.Exit? { LeavingKeeps(s, r, w, deed); } else { TakingKeeps(s, r, w, deed); }
    } else if w: WorkerId, next: Waker, after: seq<Worker> :| WorkerWakes(s, r, w, next, after) {
      WorkerWakesKeeps(s, r, w, next, after);
    } else if a: Agent :| Publish(s, r, a) {
      PublishKeeps(s, r, a);
    } else if a: Agent, next: Waker, after: seq<Worker> :| OutsiderWakes(s, r, a, next, after) {
      OutsiderWakesKeeps(s, r, a, next, after);
    } else if w: WorkerId :| Parking(s, r, w) {
      ParkingInRange(s, r, w);
      if s.workers[w].pc.Dozing? { FallAsleepKeeps(s, r, w); } else { ParkingStepKeeps(s, r, w); }
    } else {
      StoppingKeeps(s, r);
    }
  }

  lemma ParkingInRange(s: Sys, r: Sys, w: WorkerId)
    requires Parking(s, r, w)
    ensures w < |s.workers|
  {
  }

  lemma {:induction false} NobodySleeps(workers: seq<Worker>)
    requires forall w | 0 <= w < |workers| :: !CountsAsSleeping(workers[w].pc)
    ensures CountSleeping(workers) == 0
  {
    if workers != [] { NobodySleeps(workers[..|workers| - 1]); }
  }

  lemma {:induction false} RunKeepsInv(run: seq<Sys>, n: nat)
    requires Run(run) && n < |run|
    ensures Inv(run[n])
  {
    if n == 0 {
      NobodySleeps(run[0].workers);
    } else {
      hide Inv, Next;
      RunKeepsInv(run, n - 1);
      assert Follows(run, n);
      StepKeepsInv(run[n - 1], run[n]);
    }
  }

  // ------------------------------------------------------------ main results

  /**
   No wakeup is lost: in no reachable state is a handle queued, in the global queue or in any
   worker's deque, while every worker is parked un-notified and no thread is between
   publishing a handle and `notify_one`.
   */
  lemma NoWakeupIsLost(run: seq<Sys>, n: nat)
    requires Run(run) && n < |run| && AllParked(run[n]) && run[n].outsiders == map[]
    ensures run[n].global == 0 && forall w | 0 <= w < |run[n].workers| :: run[n].workers[w].deque == 0
  {
    RunKeepsInv(run, n);
    forall w | 0 <= w < |run[n].workers| ensures run[n].workers[w].deque == 0 {
      assert WorkerOk(run[n], w);
    }
  }

  /** A parked worker's own deques are empty, in every reachable state. */
  lemma ParkedWorkerHasNothing(run: seq<Sys>, n: nat, w: WorkerId)
    requires Run(run) && n < |run| && w < |run[n].workers| && run[n].workers[w].pc.Asleep?
    ensures run[n].workers[w].deque == 0
  {
    RunKeepsInv(run, n);
    assert WorkerOk(run[n], w);
  }

  function ToGo(waker: Waker): nat {
    match waker
    case Settled => 0
    case ToNotify => 1
    case ToUnlock => 2
    case ToLock => 3
    case ToLoad => 4
  }

  /**
   And the thread in between does wake somebody: while every worker stays parked each of its
   accesses brings it nearer to `notify_one`, which then releases a worker. Only the mutex can
   hold it up, and only another such thread or the destructor can then be holding it.
   */
  lemma WakerArrives(run: seq<Sys>, n: nat, a: Agent, r: Sys, next: Waker, after: seq<Worker>)
    requires Run(run) && n < |run| && AllParked(run[n]) && a in run[n].outsiders
    requires OutsiderWakes(run[n], r, a, next, after)
    ensures !run[n].mutex.ByWorker?
    ensures if run[n].outsiders[a].ToNotify? then exists v :: 0 <= v < |r.workers| && r.workers[v].pc == Asleep(true)
      else AllParked(r) && a in r.outsiders && ToGo(r.outsiders[a]) < ToGo(run[n].outsiders[a])
  {
    RunKeepsInv(run, n);
    var s := run[n];
    SleepingOne(s.workers, 0, s.workers[0]);
    NoParkedNotify(s, s.outsiders[a], next, ByOutsider(a), r.mutex, after);
  }

  /** Nothing holds it up but the mutex, and that only where it locks it. */
  lemma WakerGoesOn(run: seq<Sys>, n: nat, a: Agent) returns (r: Sys, next: Waker, after: seq<Worker>)
    requires Run(run) && n < |run| && a in run[n].outsiders
    requires run[n].outsiders[a].ToLock? ==> run[n].mutex.Unlocked?
    ensures OutsiderWakes(run[n], r, a, next, after)
  {
    RunKeepsInv(run, n);
    hide Run, Inv;
    var s := run[n];
    after := s.workers;
    var mutex := s.mutex;
    match s.outsiders[a] {
      case ToLoad => next := if s.sleeping == 0 then Settled else ToLock;
      case ToLock => next, mutex := ToUnlock, ByOutsider(a);
      case ToUnlock => next, mutex := ToNotify, Unlocked;
      case ToNotify =>
        next := Settled;
        after := NotifySomeone(s.workers);
      case Settled => OutsiderNotSettled(s, a);
    }
    r := s.(workers := after, mutex := mutex,
            outsiders := if next.Settled? then s.outsiders - {a} else s.outsiders[a := next]);
  }

  lemma OutsiderNotSettled(s: Sys, a: Agent)
    requires Inv(s) && a in s.outsiders
    ensures s.outsiders[a] != Settled
  {
  }

  lemma NotifySomeone(workers: seq<Worker>) returns (after: seq<Worker>)
    ensures NotifyOne(workers, after)
  {
    if v :| 0 <= v < |workers| && workers[v].pc == Asleep(false) {
      after := workers[v := workers[v].(pc := Asleep(true))];
    } else {
      after := workers;
    }
  }

  /** How many accesses a holder of the sleep mutex needs, at most, before it unlocks. */
  function HoldTime(workers: nat, pc: Pc): nat {
    match pc
    case Registering => workers + 6
    case CheckingRunning => workers + 5
    case CheckingGlobal => workers + 4
    case Scanning(v) => if v <= workers then workers + 3 - v else 3
    case Withdrawing => 2
    case Woken => 2
    case _ => 1
  }

  /** The next step of whoever holds the sleep mutex: a parking worker, a waker, or the destructor. */
  ghost predicate HolderMoves(s: Sys, r: Sys) {
    match s.mutex
    case Unlocked => false
    case ByWorker(w) => Parking(s, r, w) || WorkerWakes(s, r, w, ToNotify, s.workers)
    case ByOutsider(a) => OutsiderWakes(s, r, a, ToNotify, s.workers)
    case ByStopper => Stopping(s, r)
  }

  predicate HeldForLess(s: Sys, r: Sys) {
    && r.mutex == s.mutex && r.mutex.ByWorker? && r.mutex.worker < |s.workers| == |r.workers|
    && HoldTime(|r.workers|, r.workers[r.mutex.worker].pc) < HoldTime(|s.workers|, s.workers[r.mutex.worker].pc)
  }

  /** The sleep mutex is never kept: each step of its holder releases it or comes nearer to. */
  lemma SleepMutexIsReleased(run: seq<Sys>, n: nat, r: Sys)
    requires Run(run) && n < |run| && HolderMoves(run[n], r)
    ensures r.mutex.Unlocked? || HeldForLess(run[n], r)
  {
    RunKeepsInv(run, n);
    if run[n].mutex.ByWorker? { assert WorkerOk(run[n], run[n].mutex.worker); }
  }

  /** And its holder is never held up itself. */
  lemma SleepMutexHolderIsFree(run: seq<Sys>, n: nat) returns (r: Sys)
    requires Run(run) && n < |run| && !run[n].mutex.Unlocked?
    ensures HolderMoves(run[n], r)
  {
    RunKeepsInv(run, n);
    var s := run[n];
    match s.mutex
    case ByWorker(w) => r := WorkerHolderGoes(s, w);
    case ByOutsider(a) => r := s.(mutex := Unlocked, outsiders := s.outsiders[a := ToNotify]);
    case ByStopper =>
      r := s.(mutex := Unlocked, stopper := Stopped,
              workers := seq(|s.workers|, i requires 0 <= i < |s.workers| => s.workers[i].(pc := NotifiedPc(s.workers[i].pc))));
  }

  lemma WorkerHolderGoes(s: Sys, w: WorkerId) returns (r: Sys)
    requires w < |s.workers| && HoldsMutex(s.workers[w].pc)
    ensures Parking(s, r, w) || WorkerWakes(s, r, w, ToNotify, s.workers)
  {
    match s.workers[w].pc
    case Active(_) => r := SetPc(s, w, Active(ToNotify)).(mutex := Unlocked);
    case Registering => r := SetPc(s, w, CheckingRunning).(sleeping := s.sleeping + 1);
    case CheckingRunning => r := SetPc(s, w, if s.running then CheckingGlobal else Withdrawing);
    case CheckingGlobal => r := SetPc(s, w, if s.global > 0 then Withdrawing else Scanning(0));
    case Scanning(v) =>
      r := SetPc(s, w, if v >= |s.workers| then Dozing
                       else if s.workers[v].deque > 0 && (v == w || s.workers[v].pc.Asleep?) then Withdrawing
                       else Scanning(v + 1));
    case Withdrawing => r := SetPc(s, w, Unlocking).(sleeping := s.sleeping - 1);
    case Unlocking => r := SetPc(s, w, Active(Settled)).(mutex := Unlocked);
    case Dozing => r := SetPc(s, w, Asleep(false)).(mutex := Unlocked);
    case Woken => r := SetPc(s, w, Unlocking).(sleeping := s.sleeping - 1);
  }

  /** Shutdown leaves nobody asleep: after the destructor's `notify_all` no worker is in `wait` un-notified. */
  lemma ShutdownWakesEveryone(run: seq<Sys>, n: nat, w: WorkerId)
    requires Run(run) && n < |run| && w < |run[n].workers| && run[n].stopper.Stopped?
    ensures run[n].workers[w].pc != Asleep(false) && !run[n].workers[w].pc.Dozing? && !run[n].workers[w].pc.Scanning?
  {
    RunKeepsInv(run, n);
    assert WorkerOk(run[n], w);
  }

  // -------------------------------------------------------------- workers go on

  predicate InPark(pc: Pc) { !pc.Active? && !pc.Exited? }

  /** How many accesses of its own a worker has left in `park_worker`, at most. */
  function ParkLeft(workers: nat, pc: Pc): nat {
    match pc
    case Entering => workers + 13
    case Registering => workers + 12
    case CheckingRunning => workers + 11
    case CheckingGlobal => workers + 10
    case Scanning(v) => if v <= workers then workers + 9 - v else 9
    case Dozing => 7
    case Asleep(_) => 6
    case Waking => 5
    case Woken => 4
    case Withdrawing => 3
    case Unlocking => 2
    case _ => 1
  }

  /** `park_worker` returns: each access of the worker leaves fewer to make, and after the last it is back at work. */
  lemma ParkReturns(s: Sys, r: Sys, w: WorkerId)
    requires Parking(s, r, w)
    ensures w < |s.workers| == |r.workers| && InPark(s.workers[w].pc)
    ensures InPark(r.workers[w].pc) || r.workers[w].pc == Active(Settled)
    ensures ParkLeft(|r.workers|, r.workers[w].pc) < ParkLeft(|s.workers|, s.workers[w].pc)
  {
  }

  /** Nothing keeps it there but the mutex, where it locks it, or not having been notified. */
  lemma ParkGoesOn(s: Sys, w: WorkerId) returns (r: Sys)
    requires w < |s.workers| && InPark(s.workers[w].pc)
    requires s.workers[w].pc.Entering? || s.workers[w].pc.Waking? ==> s.mutex.Unlocked?
    ensures Parking(s, r, w)
  {
    match s.workers[w].pc
    case Entering => r := SetPc(s, w, Registering).(mutex := ByWorker(w));
    case Asleep(_) => r := SetPc(s, w, Waking);
    case Waking => r := SetPc(s, w, Woken).(mutex := ByWorker(w));
    case _ => r := WorkerHolderGoes(s, w);
  }

  /** A worker back at work with nothing in its hands can take whatever is there. */
  lemma WorkCanBeTaken(s: Sys, w: WorkerId, v: WorkerId) returns (r: Sys, deed: Deed)
    requires w < |s.workers| && v < |s.workers| && s.workers[w].pc == Active(Settled)
    requires s.global > 0 || s.workers[v].deque > 0
    ensures Work(s, r, w, deed) && r.workers[w].hands == s.workers[w].hands + 1
  {
    var worker := s.workers[w];
    if s.global > 0 {
      r, deed := SetWorker(s, w, worker.(hands := worker.hands + 1)).(global := s.global - 1), TakeGlobal;
    } else if v == w {
      r, deed := SetWorker(s, w, worker.(deque := worker.deque - 1, hands := worker.hands + 1)), TakeOwn;
    } else {
      r := SetWorker(SetWorker(s, v, s.workers[v].(deque := s.workers[v].deque - 1)), w, worker.(hands := worker.hands + 1));
      deed := Steal(v);
    }
  }
}
