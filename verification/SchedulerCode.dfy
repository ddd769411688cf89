/** scheduler.c, mutex.c and sleep.c as code over control blocks and linked queues.  Each method moves the model
    by one step of module Scheduler, and gives the queue macros only what they ask for: a link that is free when
    it is inserted, a member of the queue when it is removed. */
module SchedulerCode {
  import opened Seqs
  import opened IntrusiveQueue
  import opened Scheduler
  import opened SchedulerHeap
  import Inv = SchedulerInvariant
  import Theorems = SchedulerTheorems

  datatype Result = Ran | NotNow | Panics(why: Reason)

  /** The code did what the step does; after a panic the kernel's state does not matter. */
  ghost predicate Follows(o: Outcome, r: Result, before: State, after: State) {
    match o
    case Step(s) => r == Ran && after == s
    case Disabled => r == NotNow && after == before
    case Panic(why) => r == Panics(why)
  }

  // ------------------------------------------------------------------ what the macros ask of their callers

  /** A thread that is made runnable, and the caller if it is put on the queue, are on no queue. */
  ghost predicate MayWake(s: State, u: Tid, switchSafe: bool) {
    u in s.status && !s.status[u].Runnable? && !s.status[u].Running? ==>
      OffQueues(s, if s.status[u].Uninitialized? || switchSafe then u else s.running)
  }

  /** The running thread is on no queue, and neither is the thread a callback makes runnable. */
  ghost predicate MayLeave(s: State, cb: Callback) {
    OffQueues(s, s.running) && (cb.AssignChild? && cb.u in s.parked ==> OffQueues(s, cb.u))
  }

  /** A thread the caller chose is on no other queue than the runnable one. */
  ghost predicate MayChoose(s: State, u: Tid) {
    u !in s.sleepq && forall m :: m in s.mutexes ==> u !in s.mutexes[m].waiters
  }

  // ------------------------------------------------------------------ scheduler.c

  /** add_to_run */
  method AddThread(k: Kernel, tcb: Tcb)
    requires k.Ready() && k.Known(tcb) && OffQueues(k.model, tcb.tid)
    modifies k.Frame()
    ensures k.Stays() && k.model == AddToRun(old(k.model), tcb.tid)
  {
    k.SetStatus(tcb, Runnable);
    k.PushRun(tcb);
  }

  method SwapRunningThread(k: Kernel, toRun: Tcb) returns (r: Result)
    requires k.Ready() && k.Known(toRun)
    modifies k.Frame()
    ensures k.Stays() && toRun.tid in old(k.model).status
    ensures Follows(Swap(old(k.model), toRun.tid), r, old(k.model), k.model)
  {
    k.Basics();
    k.TcbIs(toRun);
    if toRun.tid == k.running.tid {
      return if toRun.status == Runnable then Ran else Panics(Broken);
    }
    k.SetStatus(toRun, Running);
    k.SetRunning(toRun);
    return Ran;
  }

  /** get_next_run */
  method GetNextRun(k: Kernel) returns (tcb: Tcb?)
    requires k.Ready()
    modifies k.Frame()
    ensures k.Stays()
    ensures if old(k.model).runq == [] then tcb == null && k.model == old(k.model)
            else tcb != null && k.Known(tcb) && tcb.tid == old(k.model).runq[0]
                 && k.model == old(k.model).(runq := old(k.model).runq[1..], picks := old(k.model).picks + 1)
  {
    tcb := k.FrontRunnable();
    if tcb != null {
      k.RemoveRun(tcb);
      k.CountPick();
    }
  }

  method RunNext(k: Kernel) returns (r: Result)
    requires k.Ready()
    modifies k.Frame()
    ensures k.Stays() && Follows(Dispatch(old(k.model)), r, old(k.model), k.model)
  {
    var tcb := GetNextRun(k);
    if tcb == null {
      return Panics(Deadlock);
    }
    k.TcbIs(tcb);
    if tcb.status != Runnable {
      return Panics(Broken);
    }
    r := SwapRunningThread(k, tcb);
  }

  /** The end of a yield to a thread: Q_IN_SOME_QUEUE says whether to take it off the runnable queue. */
  method RunChosen(k: Kernel, toRun: Tcb) returns (r: Result)
    requires k.Ready() && k.Known(toRun) && MayChoose(k.model, toRun.tid)
    modifies k.Frame()
    ensures k.Stays() && toRun.tid in old(k.model).status
    ensures Follows(DispatchTo(old(k.model), toRun.tid), r, old(k.model), k.model)
  {
    k.TcbIs(toRun);
    k.SeesQueue(toRun.tid);
    if toRun.link.InSomeQueue() {
      k.RemoveRun(toRun);
    }
    r := SwapRunningThread(k, toRun);
  }

  method MakeThreadRunnable(k: Kernel, tcb: Tcb, switchSafe: bool) returns (r: Result)
    requires k.Ready() && k.Known(tcb) && MayWake(k.model, tcb.tid, switchSafe)
    modifies k.Frame()
    ensures k.Stays()
            && Follows(Scheduler.MakeThreadRunnable(old(k.model), tcb.tid, switchSafe), r, old(k.model), k.model)
  {
    k.Basics();
    k.TcbIs(tcb);
    if tcb.status.Runnable? || tcb.status.Running? {
      return Ran;
    }
    if tcb.status.Uninitialized? || switchSafe {
      AddThread(k, tcb);
      return Ran;
    }
    AddThread(k, k.running);
    r := SwapRunningThread(k, tcb);
  }

  /** scheduler_on_tick */
  method OnTick(k: Kernel) returns (r: Result)
    requires k.Ready() && OffQueues(k.model, k.model.running)
    modifies k.Frame()
    ensures k.Stays() && Follows(Preempt(old(k.model)), r, old(k.model), k.model)
  {
    k.Basics();
    AddThread(k, k.running);
    r := RunNext(k);
  }

  // ------------------------------------------------------------------ mutex.c

  method TryLock(k: Kernel, m: Mid, won: Pc, lost: Pc) returns (r: Result)
    requires k.Ready()
    modifies k.Frame()
    ensures k.Stays() && Follows(LockTry(old(k.model), m, won, lost), r, old(k.model), k.model)
  {
    k.Basics();
    if m !in k.mutexes {
      return Panics(NoMutex);
    }
    var mux := k.mutexes[m];
    k.MuxIs(m);
    if mux.owned && mux.ownerTid == k.running.tid {
      return Panics(Reacquired);
    }
    if !mux.owned {
      k.SetOwner(m, mux, true, k.running.tid, Taken(k.model.mutexes[m], k.model.running));
      k.Basics();
      k.SetPc(k.running, won);
    } else {
      k.SetPc(k.running, lost);
    }
    return Ran;
  }

  /** Whether the running thread owns m, which the affirms of the unlocks ask. */
  method IsOwner(k: Kernel, m: Mid) returns (yes: bool)
    requires k.Ready()
    ensures k.Ready() && yes == Owns(k.model, m) && (yes ==> m in k.mutexes)
  {
    k.Basics();
    if m !in k.mutexes {
      return false;
    }
    k.MuxIs(m);
    return k.mutexes[m].owned && k.mutexes[m].ownerTid == k.running.tid;
  }

  /** The first waiter is taken off the queue and becomes the owner. */
  method HandOff(k: Kernel, m: Mid, mux: Mux, toRun: Tcb)
    requires k.Ready() && m in k.mutexes && k.mutexes[m] == mux && k.Known(toRun)
    requires m in k.model.mutexes && k.model.mutexes[m].waiters != [] && toRun.tid == k.model.mutexes[m].waiters[0]
    modifies k.Frame()
    ensures k.Stays() && OffQueues(k.model, toRun.tid)
    ensures var s := old(k.model); k.model == WithMutex(s, m, HandedOff(s.mutexes[m], s.running))
  {
    ghost var s := k.model;
    k.PopWaiter(m, mux, toRun);
    k.MuxIs(m);
    StaysOff(k.model, m, HandedOff(s.mutexes[m], s.running), toRun.tid);
    k.SetOwner(m, mux, mux.owned, toRun.tid, HandedOff(s.mutexes[m], s.running));
  }

  lemma StaysOff(s: State, m: Mid, x: Mutex, t: Tid)
    requires OffQueues(s, t) && m in s.mutexes && x.waiters == s.mutexes[m].waiters
    ensures OffQueues(WithMutex(s, m, x), t)
  {
  }

  /** The queue part of mutex_unlock_helper: the first waiter becomes the owner, or the mutex is free. */
  method Release(k: Kernel, m: Mid) returns (toRun: Tcb?)
    requires k.Ready() && m in k.mutexes
    modifies k.Frame()
    ensures k.Stays() && m in old(k.model).mutexes
    ensures var s := old(k.model);
            var x := s.mutexes[m];
            if x.waiters == [] then toRun == null && k.model == WithMutex(s, m, Freed(x, s.running))
            else toRun != null && k.Known(toRun) && toRun.tid == x.waiters[0] && OffQueues(k.model, toRun.tid)
                 && k.model == WithMutex(s, m, HandedOff(x, s.running))
  {
    k.Basics();
    var mux := k.mutexes[m];
    k.MuxIs(m);
    toRun := k.FrontWaiter(m, mux);
    if toRun != null {
      HandOff(k, m, mux, toRun);
    } else {
      k.SetOwner(m, mux, false, mux.ownerTid, Freed(k.model.mutexes[m], k.model.running));
    }
  }

  method SwitchSafeUnlock(k: Kernel, m: Mid) returns (r: Result)
    requires k.Ready()
    modifies k.Frame()
    ensures k.Stays() && Follows(SafeUnlock(old(k.model), m), r, old(k.model), k.model)
  {
    var yes := IsOwner(k, m);
    if !yes {
      return Panics(NotOwner);
    }
    var toRun := Release(k, m);
    if toRun != null {
      r := MakeThreadRunnable(k, toRun, true);
    } else {
      r := Ran;
    }
  }

  method UnlockMutex(k: Kernel, m: Mid) returns (r: Result)
    requires k.Ready()
    modifies k.Frame()
    ensures k.Stays() && Follows(Unlock(old(k.model), m), r, old(k.model), k.model)
  {
    k.Basics();
    var yes := IsOwner(k, m);
    if !yes {
      return Panics(NotOwner);
    }
    var toRun := Release(k, m);
    if toRun != null {
      k.Basics();
      k.SetPc(k.running, Waking(toRun.tid));
    }
    return Ran;
  }

  // ------------------------------------------------------------------ callbacks

  /** store_tcb_in_mutex_queue */
  method StoreInMutexQueue(k: Kernel, m: Mid)
    requires k.Ready() && m in k.mutexes && OffQueues(k.model, k.model.running)
    modifies k.Frame()
    ensures k.Stays() && m in old(k.model).mutexes && k.model == Enqueued(old(k.model), m)
  {
    k.Basics();
    k.MuxIs(m);
    k.PushWaiter(m, k.mutexes[m], k.running);
  }

  /** store_tcb_in_sleep_queue; history notes a date that a scan before its lock will not see. */
  method StoreInSleepQueue(k: Kernel) returns (r: Result)
    requires k.Ready() && OffQueues(k.model, k.model.running)
    modifies k.Frame()
    ensures k.Stays() && old(k.model).running in old(k.model).expiry
    ensures Follows(SafeUnlock(StoredAsleep(old(k.model)), old(k.model).sleepMux), r, old(k.model), k.model)
  {
    k.Basics();
    k.TcbIs(k.running);
    ghost var s := k.model;
    k.SetScan(k.scan, StoredAsleep(s).scan);
    k.Basics();
    k.TcbIs(k.running);
    var date := k.running.expiryDate;
    if date < k.earliestExpiryDate {
      k.SetEarliest(date);
    }
    k.Basics();
    k.PushSleep(k.running);
    r := SwitchSafeUnlock(k, k.sleepMux);
  }

  /** store_waiting_thread, as far as the scheduler sees it. */
  method StoreParkedThread(k: Kernel, m: Mid) returns (r: Result)
    requires k.Ready()
    modifies k.Frame()
    ensures k.Stays() && Follows(RunCallback(old(k.model), StoreParked(m)), r, old(k.model), k.model)
  {
    k.Basics();
    k.SetParked(k.parked + {k.running.tid});
    r := SwitchSafeUnlock(k, m);
  }

  /** assign_child_task_to_parent_thread, as far as the scheduler sees it. */
  method AssignChildTask(k: Kernel, m: Mid, u: Tid) returns (r: Result)
    requires k.Ready() && (u in k.model.parked ==> OffQueues(k.model, u))
    modifies k.Frame()
    ensures k.Stays() && Follows(Assign(old(k.model), m, u), r, old(k.model), k.model)
  {
    k.Basics();
    if u !in k.parked || u !in k.threads {
      return Panics(BadStatus);
    }
    var tcb := k.threads[u];
    k.Thread(u);
    k.TcbIs(tcb);
    k.SeesQueue(u);
    if tcb.status != Blocked || tcb.link.InSomeQueue() {
      return Panics(BadStatus);
    }
    k.SetParked(k.parked - {u});
    r := SwitchSafeUnlock(k, m);
    if r == Ran {
      UnlockLeavesOff(old(k.model).(parked := old(k.model).parked - {u}), m, u);
      r := MakeThreadRunnable(k, tcb, true);
    }
  }

  /** switch_safe_mutex_unlock queues the next owner, and nobody else. */
  lemma UnlockLeavesOff(s: State, m: Mid, u: Tid)
    requires OffQueues(s, u) && SafeUnlock(s, m).Step?
    ensures OffQueues(SafeUnlock(s, m).s, u)
  {
  }

  method DoCallback(k: Kernel, cb: Callback) returns (r: Result)
    requires k.Ready() && MayLeave(k.model, cb)
    modifies k.Frame()
    ensures k.Stays() && Follows(RunCallback(old(k.model), cb), r, old(k.model), k.model)
  {
    k.Basics();
    match cb
    case NoCallback =>
      r := Ran;
    case StoreInMutex(m) =>
      if m !in k.mutexes {
        return Panics(NoMutex);
      }
      StoreInMutexQueue(k, m);
      r := Ran;
    case StoreAsleep =>
      r := StoreInSleepQueue(k);
    case StoreParked(m) =>
      r := StoreParkedThread(k, m);
    case UnlockMux(m) =>
      r := SwitchSafeUnlock(k, m);
    case AssignChild(m, u) =>
      r := AssignChildTask(k, m, u);
  }

  /** The running thread's new status, and the queue or callback that goes with it. */
  method StoreRunning(k: Kernel, store: Status, cb: Callback) returns (r: Result)
    requires k.Ready() && MayLeave(k.model, cb)
    modifies k.Frame()
    ensures k.Stays() && Follows(Scheduler.StoreRunning(old(k.model), store, cb), r, old(k.model), k.model)
  {
    k.Basics();
    if store.Runnable? {
      k.SetStatus(k.running, store);
      k.Basics();
      AddThread(k, k.running);
      r := Ran;
    } else {
      r := StoreCallback(k, store, cb);
    }
  }

  method StoreCallback(k: Kernel, store: Status, cb: Callback) returns (r: Result)
    requires k.Ready() && MayLeave(k.model, cb)
    modifies k.Frame()
    ensures k.Stays()
    ensures Follows(RunCallback(WithStatus(old(k.model), old(k.model).running, store), cb), r, old(k.model), k.model)
  {
    SetOwnStatus(k, store);
    r := DoCallback(k, cb);
  }

  method SetOwnStatus(k: Kernel, st: Status)
    requires k.Ready()
    modifies k.Frame()
    ensures k.Stays() && k.model == WithStatus(old(k.model), old(k.model).running, st)
  {
    k.Basics();
    k.SetStatus(k.running, st);
  }

  method SetOwnPc(k: Kernel, pc: Pc)
    requires k.Ready()
    modifies k.Frame()
    ensures k.Stays() && k.model == WithPc(old(k.model), old(k.model).running, pc)
  {
    k.Basics();
    k.SetPc(k.running, pc);
  }

  /** yield_execution to whoever is next. */
  method YieldExecution(k: Kernel, store: Status, cb: Callback) returns (r: Result)
    requires k.Ready() && MayLeave(k.model, cb)
    modifies k.Frame()
    ensures k.Stays() && Follows(Scheduler.YieldExecution(old(k.model), store, None, cb), r, old(k.model), k.model)
  {
    if store.Running? || store.Uninitialized? {
      return Panics(BadStatus);
    }
    r := StoreRunning(k, store, cb);
    if r == Ran {
      r := RunNext(k);
    }
  }

  /** yield_execution to a thread the caller names; only yield does that. */
  method YieldTo(k: Kernel, toRun: Tcb) returns (r: Result)
    requires k.Ready() && k.Known(toRun) && OffQueues(k.model, k.model.running)
    requires toRun.tid in k.model.status
    requires k.model.status[toRun.tid].Runnable? || k.model.status[toRun.tid].Running? ==> MayChoose(k.model, toRun.tid)
    modifies k.Frame()
    ensures k.Stays() && toRun.tid in old(k.model).status
    ensures Follows(Scheduler.YieldExecution(old(k.model), Runnable, Some(toRun.tid), NoCallback), r, old(k.model), k.model)
  {
    k.TcbIs(toRun);
    if !toRun.status.Runnable? && !toRun.status.Running? {
      return Ran;
    }
    r := StoreRunning(k, Runnable, NoCallback);
    r := RunChosen(k, toRun);
  }

  // ------------------------------------------------------------------ sleep.c

  /** sleep_on_tick after its tests: the date is reset and sleep_mux tried. */
  method BeginSleepScan(k: Kernel) returns (r: Result)
    requires k.Ready()
    modifies k.Frame()
    ensures k.Stays() && Follows(StartScan(old(k.model)), r, old(k.model), k.model)
  {
    k.Basics();
    if k.sleepMux !in k.mutexes {
      return Panics(NoMutex);
    }
    var mux := k.mutexes[k.sleepMux];
    k.MuxIs(k.sleepMux);
    if mux.owned && mux.ownerTid == k.running.tid {
      return Panics(Reacquired);
    }
    ghost var c := BeginScan(k.model);
    k.SetEarliest(UINT_MAX);
    k.Basics();
    k.MuxIs(k.sleepMux);
    if !mux.owned {
      k.SetOwner(k.sleepMux, mux, true, k.running.tid, Taken(k.model.mutexes[k.sleepMux], k.model.running));
      k.Basics();
      k.FrontIs();
      k.SetScan(Some(ScanFrame(k.running.tid, k.totalTicks, ScanLoop, k.sleepQ.front)), Some(c));
    } else {
      k.SetScan(Some(ScanFrame(k.running.tid, k.totalTicks, ScanGap, null)), Some(c.(phase := ScanGap)));
    }
    return Ran;
  }

  /** timer_int_handler and tick */
  method TimerInterrupt(k: Kernel) returns (r: Result)
    requires k.Ready() && OffQueues(k.model, k.model.running)
    modifies k.Frame()
    ensures k.Stays() && Follows(Tick(old(k.model)), r, old(k.model), k.model)
  {
    k.Basics();
    k.CountTick();
    k.Basics();
    if k.totalTicks >= UINT_MAX {
      return Panics(TooLong);
    }
    if k.scan == None && k.totalTicks >= k.earliestExpiryDate {
      r := BeginSleepScan(k);
    } else if k.totalTicks % WAIT_TICKS == 0 {
      r := OnTick(k);
    } else {
      r := Ran;
    }
  }

  /** The scan's list of threads not yet passed is the rest of the sleep queue. */
  ghost predicate InStep(s: State) {
    s.scan.Some? && s.sleepq == s.scan.value.kept + s.scan.value.rest
  }

  /** One turn of the loop of sleep_on_tick: the next pointer is read before the thread leaves the queue. */
  method ScanTurn(k: Kernel, f: ScanFrame) returns (r: Result)
    requires k.Ready() && k.scan == Some(f) && f.phase == ScanLoop && f.curr != null && InStep(k.model)
    modifies k.Frame()
    ensures k.Stays() && old(k.model).scan.Some? && old(k.model).scan.value.rest != []
    ensures Follows(ScanOne(old(k.model), old(k.model).scan.value), r, old(k.model), k.model)
  {
    k.Basics();
    ghost var c := k.model.scan.value;
    assert k.CurrIs(f.curr, c.rest);
    k.NextIs(c.kept, c.rest, f.curr);
    var tcb := k.threads[f.curr.pid];
    k.TcbIs(tcb);
    if tcb.expiryDate <= f.now {
      WakeTurn(k, f, tcb, f.curr.next);
    } else {
      PassTurn(k, f, tcb, f.curr.next);
    }
    return Ran;
  }

  /** What a turn needs to know of the list. */
  ghost predicate AtTurn(k: Kernel, f: ScanFrame, tcb: Tcb, next: Elem?)
    reads k
  {
    && k.Known(tcb) && k.scan == Some(f) && f.phase == ScanLoop && k.model.scan.Some? && k.model.scan.value.rest != []
    && tcb.tid == k.model.scan.value.rest[0] && tcb.tid in k.model.sleepq && tcb.tid in k.model.expiry
    && k.CurrIs(next, k.model.scan.value.rest[1..])
  }

  /** Q_REMOVE from the sleep queue of a thread that has slept long enough. */
  method WakeTurn(k: Kernel, f: ScanFrame, tcb: Tcb, next: Elem?)
    requires k.Ready() && AtTurn(k, f, tcb, next) && tcb.expiryDate <= f.now
    modifies k.Frame()
    ensures k.Stays() && old(AtTurn(k, f, tcb, next))
    ensures ScanOne(old(k.model), old(k.model).scan.value) == Step(k.model)
  {
    k.Basics();
    k.TcbIs(tcb);
    ghost var c := k.model.scan.value;
    ghost var c1 := c.(rest := c.rest[1..], past := c.past + [tcb.tid], woken := c.woken + [tcb.tid], phase := ScanWake(tcb.tid));
    k.SetScan(Some(f.(curr := next, phase := ScanWake(tcb.tid))), Some(c1));
    k.RemoveSleep(tcb);
  }

  /** The date of a thread that sleeps on goes into the index. */
  method PassTurn(k: Kernel, f: ScanFrame, tcb: Tcb, next: Elem?)
    requires k.Ready() && AtTurn(k, f, tcb, next) && tcb.expiryDate > f.now
    modifies k.Frame()
    ensures k.Stays() && old(AtTurn(k, f, tcb, next))
    ensures ScanOne(old(k.model), old(k.model).scan.value) == Step(k.model)
  {
    k.Basics();
    k.TcbIs(tcb);
    ghost var c := k.model.scan.value;
    ghost var c1 := c.(rest := c.rest[1..], past := c.past + [tcb.tid], kept := c.kept + [tcb.tid]);
    k.SetScan(Some(f.(curr := next)), Some(c1));
    k.Basics();
    k.TcbIs(tcb);
    if tcb.expiryDate < k.earliestExpiryDate {
      k.SetEarliest(tcb.expiryDate);
    }
  }

  /** mutex_unlock of sleep_mux at the end of the loop. */
  method ScanFinish(k: Kernel, f: ScanFrame) returns (r: Result)
    requires k.Ready() && k.scan == Some(f) && k.model.scan.Some?
    modifies k.Frame()
    ensures k.Stays() && old(k.model).scan.Some?
    ensures Follows(ScanUnlock(old(k.model), old(k.model).scan.value), r, old(k.model), k.model)
  {
    k.Basics();
    ghost var c := k.model.scan.value;
    var yes := IsOwner(k, k.sleepMux);
    if !yes {
      return Panics(NotOwner);
    }
    var toRun := Release(k, k.sleepMux);
    if toRun != null {
      k.SetScan(Some(f.(phase := ScanHand(toRun.tid))), Some(c.(phase := ScanHand(toRun.tid))));
    } else {
      k.SetScan(Some(f.(phase := ScanDone)), Some(c.(phase := ScanDone)));
    }
    return Ran;
  }

  /** The scan comes back from its wait for sleep_mux. */
  method ScanLocked(k: Kernel, f: ScanFrame) returns (r: Result)
    requires k.Ready() && k.scan == Some(f) && k.model.scan.Some?
    modifies k.Frame()
    ensures k.Stays() && old(k.model).scan.Some?
    ensures Follows(ScanResume(old(k.model), old(k.model).scan.value), r, old(k.model), k.model)
  {
    k.Basics();
    ghost var s, c := k.model, k.model.scan.value;
    var yes := IsOwner(k, k.sleepMux);
    if !yes {
      return Panics(Broken);
    }
    var mux := k.mutexes[k.sleepMux];
    k.MuxIs(k.sleepMux);
    ghost var x := s.mutexes[k.sleepMux];
    k.SetOwner(k.sleepMux, mux, mux.owned, mux.ownerTid, x.(inside := x.inside + {s.running}));
    k.FrontIs();
    k.SetScan(Some(f.(phase := ScanLoop, curr := k.sleepQ.front)),
              Some(c.(phase := ScanLoop, rest := s.sleepq, start := s.sleepq, dates := s.expiry)));
    return Ran;
  }

  // ------------------------------------------------------------------ what the invariant grants the macros

  /** Who is where, seen from the queues. */
  lemma HomeOff(s: State, h: Inv.Homes, t: Tid)
    requires Inv.InvAt(s, h) && t in h && !h[t].Queued? && !h[t].Asleep? && !h[t].OnMutex?
    ensures OffQueues(s, t)
  {
    assert Inv.ListsOk(s, h, t);
    forall m | m in s.mutexes
      ensures t !in s.mutexes[m].waiters
    {
      assert Inv.WaitersOk(s, h, m, t);
    }
  }

  lemma RunnerOff(s: State)
    requires Inv.Inv(s)
    ensures OffQueues(s, s.running)
  {
    var h: Inv.Homes :| Inv.InvAt(s, h);
    HomeOff(s, h, s.running);
  }

  lemma ParkedOff(s: State, u: Tid)
    requires Inv.Inv(s) && u in s.parked
    ensures OffQueues(s, u)
  {
    var h: Inv.Homes :| Inv.InvAt(s, h);
    assert Inv.ListsOk(s, h, u);
    HomeOff(s, h, u);
  }

  lemma OutsideOff(s: State, u: Tid)
    requires Inv.Inv(s) && u in s.status && (s.status[u].Descheduled? || s.status[u].Uninitialized?)
    ensures OffQueues(s, u)
  {
    var h: Inv.Homes :| Inv.InvAt(s, h);
    assert Inv.HomeOk(s, h, None, u);
    HomeOff(s, h, u);
  }

  lemma WakingOff(s: State, u: Tid)
    requires Inv.Inv(s) && ((s.running in s.pc && s.pc[s.running] == Waking(u)) || Inv.ScanCarries(s) == Some(u))
    ensures u in s.status && OffQueues(s, u)
  {
    var h: Inv.Homes :| Inv.InvAt(s, h);
    assert Inv.CarryOk(s, h, s.running);
    HomeOff(s, h, u);
  }

  lemma ChosenOk(s: State, u: Tid)
    requires Inv.Inv(s) && u in s.status && (s.status[u].Runnable? || s.status[u].Running?)
    ensures MayChoose(s, u)
  {
    var h: Inv.Homes :| Inv.InvAt(s, h);
    assert Inv.HomeOk(s, h, None, u) && Inv.ListsOk(s, h, u);
    forall m | m in s.mutexes
      ensures u !in s.mutexes[m].waiters
    {
      assert Inv.WaitersOk(s, h, m, u);
    }
  }

  lemma ScanInStep(s: State)
    requires Inv.Inv(s) && s.scan.Some? && s.scan.value.phase == ScanLoop
    ensures InStep(s)
  {
    var h: Inv.Homes :| Inv.InvAt(s, h);
    assert Inv.ScanOk(Inv.SleepersOf(s), s.scan.value);
  }

  // ------------------------------------------------------------------ the machine

  /** sleep_on_tick, from one switch of threads to the next. */
  method SleepOnTick(k: Kernel, f: ScanFrame) returns (r: Result)
    requires k.Ready() && Inv.Inv(k.model) && k.scan == Some(f) && k.model.scan.Some?
    modifies k.Frame()
    ensures k.Stays() && old(k.model).scan.Some?
    ensures Follows(ScanStep(old(k.model), old(k.model).scan.value), r, old(k.model), k.model)
  {
    k.Basics();
    RunnerOff(k.model);
    match f.phase
    case ScanGap =>
      r := ScanBlocks(k, f);
    case ScanWait =>
      r := ScanLocked(k, f);
    case ScanLoop =>
      ScanInStep(k.model);
      if f.curr == null {
        r := ScanFinish(k, f);
      } else {
        r := ScanTurn(k, f);
      }
    case ScanWake(u) =>
      WakingOff(k.model, u);
      r := ScanWakes(k, f, u, ScanLoop);
    case ScanHand(u) =>
      WakingOff(k.model, u);
      r := ScanWakes(k, f, u, ScanDone);
    case ScanDone =>
      k.SetScan(None, None);
      r := Ran;
  }

  /** The block of the scan's mutex_lock. */
  method ScanBlocks(k: Kernel, f: ScanFrame) returns (r: Result)
    requires k.Ready() && k.scan == Some(f) && k.model.scan.Some? && OffQueues(k.model, k.model.running)
    modifies k.Frame()
    ensures k.Stays() && old(k.model).scan.Some?
    ensures var s := old(k.model);
            Follows(Scheduler.YieldExecution(WithScan(s, s.scan.value.(phase := ScanWait)), Blocked, None, StoreInMutex(s.sleepMux)),
                    r, s, k.model)
  {
    k.Basics();
    k.SetScan(Some(f.(phase := ScanWait)), Some(k.model.scan.value.(phase := ScanWait)));
    r := YieldExecution(k, Blocked, StoreInMutex(k.sleepMux));
  }

  /** The scan makes a thread runnable and will go on at `phase`. */
  method ScanWakes(k: Kernel, f: ScanFrame, u: Tid, phase: Phase) returns (r: Result)
    requires k.Ready() && k.scan == Some(f) && k.model.scan.Some? && (phase == ScanDone || (phase == ScanLoop
             && f.phase.ScanWake?))
    requires u in k.model.status && OffQueues(k.model, k.model.running) && OffQueues(k.model, u)
    modifies k.Frame()
    ensures k.Stays() && old(k.model).scan.Some?
    ensures var s := old(k.model);
            Follows(Scheduler.MakeThreadRunnable(WithScan(s, s.scan.value.(phase := phase)), u, false), r, s, k.model)
  {
    k.Basics();
    k.SetScan(Some(f.(phase := phase)), Some(k.model.scan.value.(phase := phase)));
    r := Wake(k, u);
  }

  /** make_thread_runnable, with the switch to the woken thread. */
  method Wake(k: Kernel, u: Tid) returns (r: Result)
    requires k.Ready() && u in k.model.status && OffQueues(k.model, k.model.running) && OffQueues(k.model, u)
    modifies k.Frame()
    ensures k.Stays() && Follows(Scheduler.MakeThreadRunnable(old(k.model), u, false), r, old(k.model), k.model)
  {
    k.Basics();
    k.Thread(u);
    r := MakeThreadRunnable(k, k.threads[u], false);
  }

  /** sleep */
  method SleepCall(k: Kernel, n: int) returns (r: Result)
    requires k.Ready()
    modifies k.Frame()
    ensures k.Stays() && Follows(DoSleep(old(k.model), n), r, old(k.model), k.model)
  {
    if n <= 0 {
      return Ran;
    }
    k.Basics();
    k.SetExpiry(k.running, WakeDate(k.totalTicks, n));
    k.Basics();
    r := TryLock(k, k.sleepMux, SleepHasMux, LockGap(k.sleepMux, true));
  }

  /** yield */
  method YieldCall(k: Kernel, target: Option<Tid>) returns (r: Result)
    requires k.Ready() && Inv.Inv(k.model)
    modifies k.Frame()
    ensures k.Stays() && Follows(DoCall(old(k.model), Yield(target)), r, old(k.model), k.model)
  {
    k.Basics();
    RunnerOff(k.model);
    if target.None? {
      r := YieldExecution(k, Runnable, NoCallback);
      return;
    }
    var u := target.value;
    if u !in k.threads {
      return Ran;
    }
    if k.model.status[u].Runnable? || k.model.status[u].Running? {
      ChosenOk(k.model, u);
    }
    k.Thread(u);
    r := YieldTo(k, k.threads[u]);
  }

  /** make_runnable, thread creation, and the first make_thread_runnable of a new thread. */
  method ThreadCall(k: Kernel, call: Call) returns (r: Result)
    requires k.Ready() && Inv.Inv(k.model) && (call.MakeRunnable? || call.Create? || call.Start?)
    modifies k.Frame(), k.heap
    ensures k.Ready() && Follows(DoCall(old(k.model), call), r, old(k.model), k.model)
  {
    k.Basics();
    RunnerOff(k.model);
    if call.u !in k.threads {
      if call.Create? {
        k.CreateTcb(call.u);
        return Ran;
      }
      return if call.Start? then NotNow else Ran;
    }
    if call.Create? {
      return NotNow;
    }
    k.Thread(call.u);
    var tcb := k.threads[call.u];
    k.TcbIs(tcb);
    if (call.MakeRunnable? && !tcb.status.Descheduled?) || (call.Start? && !tcb.status.Uninitialized?) {
      return if call.Start? then NotNow else Ran;
    }
    OutsideOff(k.model, call.u);
    r := Wake(k, call.u);
  }

  method DoSyscall(k: Kernel, call: Call) returns (r: Result)
    requires k.Ready() && Inv.Inv(k.model)
    modifies k.Frame(), k.heap
    ensures k.Ready() && Follows(DoCall(old(k.model), call), r, old(k.model), k.model)
  {
    RunnerOff(k.model);
    match call
    case Yield(target) =>
      r := YieldCall(k, target);
    case Deschedule =>
      r := YieldExecution(k, Descheduled, NoCallback);
    case MakeRunnable(_) =>
      r := ThreadCall(k, call);
    case Create(_) =>
      r := ThreadCall(k, call);
    case Start(_) =>
      r := ThreadCall(k, call);
    case Lock(m) =>
      r := TryLock(k, m, Idle, LockGap(m, false));
    case Unlocks(m) =>
      r := UnlockMutex(k, m);
    case Sleep(n) =>
      r := SleepCall(k, n);
    case Wait(m) =>
      r := YieldExecution(k, Blocked, StoreParked(m));
    case Vanish(cb) =>
      r := VanishCall(k, cb);
  }

  /** The yield a thread does not come back from. */
  method VanishCall(k: Kernel, cb: Callback) returns (r: Result)
    requires k.Ready() && Inv.Inv(k.model)
    modifies k.Frame()
    ensures k.Stays() && Follows(DoCall(old(k.model), Vanish(cb)), r, old(k.model), k.model)
  {
    if !cb.NoCallback? && !cb.UnlockMux? && !cb.AssignChild? {
      return NotNow;
    }
    RunnerOff(k.model);
    if cb.AssignChild? && cb.u in k.model.parked {
      ParkedOff(k.model, cb.u);
    }
    r := YieldExecution(k, Dead, cb);
  }

  /** A thread goes on inside mutex_lock, mutex_unlock or sleep. */
  method Continue(k: Kernel) returns (r: Result)
    requires k.Ready() && Inv.Inv(k.model) && k.model.running in k.model.pc
    modifies k.Frame()
    ensures k.Stays() && old(k.model).running in old(k.model).pc
    ensures Follows(GoStep(old(k.model), old(k.model).pc[old(k.model).running]), r, old(k.model), k.model)
  {
    k.Basics();
    k.TcbIs(k.running);
    RunnerOff(k.model);
    match k.running.pc
    case Idle =>
      r := NotNow;
    case LockGap(m, toSleep) =>
      r := Block(k, m, toSleep);
    case LockWait(m, toSleep) =>
      r := LockBack(k, m, toSleep);
    case Waking(u) =>
      WakingOff(k.model, u);
      r := FinishUnlock(k, u);
    case SleepHasMux =>
      r := FallAsleep(k);
  }

  /** mutex_lock from the gap on: the thread blocks for m. */
  method Block(k: Kernel, m: Mid, toSleep: bool) returns (r: Result)
    requires k.Ready() && OffQueues(k.model, k.model.running)
    modifies k.Frame()
    ensures k.Stays() && Follows(GoStep(old(k.model), LockGap(m, toSleep)), r, old(k.model), k.model)
  {
    SetOwnPc(k, LockWait(m, toSleep));
    r := YieldExecution(k, Blocked, StoreInMutex(m));
  }

  /** sleep, once it holds sleep_mux. */
  method FallAsleep(k: Kernel) returns (r: Result)
    requires k.Ready() && OffQueues(k.model, k.model.running)
    modifies k.Frame()
    ensures k.Stays() && Follows(GoStep(old(k.model), SleepHasMux), r, old(k.model), k.model)
  {
    SetOwnPc(k, Idle);
    r := YieldExecution(k, Blocked, StoreAsleep);
  }

  /** The end of mutex_unlock. */
  method FinishUnlock(k: Kernel, u: Tid) returns (r: Result)
    requires k.Ready() && u in k.model.status && OffQueues(k.model, k.model.running) && OffQueues(k.model, u)
    modifies k.Frame()
    ensures k.Stays() && Follows(GoStep(old(k.model), Waking(u)), r, old(k.model), k.model)
  {
    SetOwnPc(k, Idle);
    r := Wake(k, u);
  }

  /** mutex_lock after its yield: the thread that woke this one has made it the owner. */
  method LockBack(k: Kernel, m: Mid, toSleep: bool) returns (r: Result)
    requires k.Ready()
    modifies k.Frame()
    ensures k.Stays() && Follows(GoStep(old(k.model), LockWait(m, toSleep)), r, old(k.model), k.model)
  {
    var yes := IsOwner(k, m);
    if !yes {
      return Panics(Broken);
    }
    k.MuxIs(m);
    ghost var x := k.model.mutexes[m];
    k.SetOwner(m, k.mutexes[m], k.mutexes[m].owned, k.mutexes[m].ownerTid, x.(inside := x.inside + {k.model.running}));
    k.Basics();
    k.SetPc(k.running, if toSleep then SleepHasMux else Idle);
    return Ran;
  }

  /** One step of the kernel: the code over control blocks and linked queues does what the machine says, no queue
      macro is misused and no affirm of the scheduler, the mutex or sleep fails; the invariant survives unless
      the step is the yield to oneself. */
  method Act(k: Kernel, a: Action) returns (r: Result)
    requires k.Ready() && Inv.Inv(k.model)
    modifies k.Frame(), k.heap
    ensures k.Ready() && Follows(Next(old(k.model), a), r, old(k.model), k.model)
    ensures r != Panics(Broken)
    ensures r == Ran ==> (Inv.Inv(k.model) <==> !Theorems.SelfYield(old(k.model), a))
  {
    Theorems.StepKeepsIff(k.model, a);
    RunnerOff(k.model);
    k.Basics();
    k.TcbIs(k.running);
    match a
    case Ticks =>
      r := TimerInterrupt(k);
    case Preempts =>
      r := OnTick(k);
    case Goes =>
      if k.scan.Some? && k.scan.value.who == k.running.tid {
        r := SleepOnTick(k, k.scan.value);
      } else {
        r := Continue(k);
      }
    case Calls(call) =>
      if (k.scan.Some? && k.scan.value.who == k.running.tid) || k.running.pc != Idle {
        return NotNow;
      }
      r := DoSyscall(k, call);
  }
}
