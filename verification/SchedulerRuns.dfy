/** Properties of whole runs: bounded waiting, waiters of a free mutex, and the exactness of the index. */
module SchedulerRuns {
  import opened Seqs
  import opened Scheduler
  import opened SchedulerInvariant
  import opened SchedulerLocks
  import opened SchedulerSteps
  import opened SchedulerScan
  import opened SchedulerTheorems
  import opened SchedulerQueues
  import Sleep = SchedulerSleep

  // ------------------------------------------------------------------ bounded waiting

  /** Position of the first occurrence. */
  function Index(xs: seq<Tid>, t: Tid): nat {
    if xs == [] || xs[0] == t then 0 else 1 + Index(xs[1..], t)
  }

  lemma {:induction false} IndexAppend(xs: seq<Tid>, ys: seq<Tid>, t: Tid)
    requires t in xs
    ensures Index(xs + ys, t) == Index(xs, t)
  {
    if xs[0] != t {
      IndexAppend(xs[1..], ys, t);
      assert (xs + ys)[1..] == xs[1..] + ys;
    }
  }

  lemma {:induction false} IndexWithout(xs: seq<Tid>, u: Tid, t: Tid)
    requires t in xs && t != u
    ensures Index(Without(xs, u), t) <= Index(xs, t)
  {
    if xs[0] != t && xs[0] != u {
      IndexWithout(xs[1..], u, t);
      assert Without(xs, u)[1..] == Without(xs[1..], u);
    }
  }

  /** Threads already queued keep their place. */
  ghost predicate Extends(s: State, s': State) {
    s.runq <= s'.runq && s'.picks == s.picks
  }

  /** A queued thread does not move back, moves up by one at every get_next_run, and leaves the queue
      only to run. */
  ghost predicate MovesUp(s: State, s': State, t: Tid) {
    && s.picks <= s'.picks
    && (t in s.runq ==>
          if t in s'.runq then Index(s'.runq, t) + s'.picks - s.picks <= Index(s.runq, t) else s'.running == t)
  }

  lemma ExtendsMovesUp(s: State, s': State, t: Tid)
    requires Extends(s, s')
    ensures MovesUp(s, s', t)
  {
    if t in s.runq {
      IndexAppend(s.runq, s'.runq[|s.runq|..], t);
      assert s'.runq == s.runq + s'.runq[|s.runq|..];
    }
  }

  lemma KeptBy(s: State, s': State, t: Tid)
    requires Extends(s, s') && t in s.runq
    ensures t in s'.runq
  {
    var k :| 0 <= k < |s.runq| && s.runq[k] == t;
    assert s'.runq[k] == t;
  }

  ghost predicate Fresh(s: State) {
    s.running !in s.runq
  }

  lemma SwapMovesUp(s: State, u: Tid, s0: State, t: Tid)
    requires u in s.status && Swap(s, u).Step? && (t in s0.runq && t !in s.runq ==> t == u)
    requires s0.picks <= s.picks
    requires t in s0.runq && t in s.runq && t != u ==> Index(s.runq, t) + s.picks - s0.picks <= Index(s0.runq, t)
    requires Fresh(Swap(s, u).s)
    ensures MovesUp(s0, Swap(s, u).s, t)
  {
  }

  lemma DispatchMovesUp(s0: State, s: State, t: Tid)
    requires Extends(s0, s) && Dispatch(s).Step? && Fresh(Dispatch(s).s)
    ensures MovesUp(s0, Dispatch(s).s, t)
  {
    ExtendsMovesUp(s0, s, t);
    var s1 := s.(runq := s.runq[1..], picks := s.picks + 1);
    if t in s0.runq {
      KeptBy(s0, s, t);
      assert s.runq == [s.runq[0]] + s1.runq;
    }
    SwapMovesUp(s1, s.runq[0], s0, t);
  }

  lemma DispatchToMovesUp(s0: State, s: State, u: Tid, t: Tid)
    requires Extends(s0, s) && u in s.status && DispatchTo(s, u).Step? && Fresh(DispatchTo(s, u).s)
    requires u == s.running || u !in s.runq || InSomeQueue(s, u)
    ensures MovesUp(s0, DispatchTo(s, u).s, t)
  {
    ExtendsMovesUp(s0, s, t);
    if InSomeQueue(s, u) {
      if t in s0.runq && t != u {
        KeptBy(s0, s, t);
        IndexWithout(s.runq, u, t);
      }
      SwapMovesUp(s.(runq := Without(s.runq, u)), u, s0, t);
    } else {
      SwapMovesUp(s, u, s0, t);
    }
  }

  lemma SafeUnlockExtends(s: State, m: Mid)
    requires SafeUnlock(s, m).Step?
    ensures Extends(s, SafeUnlock(s, m).s)
  {
  }

  lemma CallbackExtends(s: State, cb: Callback)
    requires RunCallback(s, cb).Step?
    ensures Extends(s, RunCallback(s, cb).s)
  {
    match cb
    case StoreAsleep => SafeUnlockExtends(StoredAsleep(s), s.sleepMux);
    case StoreParked(m) => SafeUnlockExtends(s.(parked := s.parked + {s.running}), m);
    case UnlockMux(m) => SafeUnlockExtends(s, m);
    case AssignChild(m, u) => SafeUnlockExtends(s.(parked := s.parked - {u}), m);
    case _ =>
  }

  lemma YieldMovesUp(s0: State, s: State, store: Status, cb: Callback, t: Tid)
    requires s.runq == s0.runq && s.picks == s0.picks
    requires YieldExecution(s, store, None, cb).Step? && Fresh(YieldExecution(s, store, None, cb).s)
    ensures MovesUp(s0, YieldExecution(s, store, None, cb).s, t)
  {
    var s1 := WithStatus(s, s.running, store);
    if store.Runnable? {
      DispatchMovesUp(s0, AddToRun(s1, s.running), t);
    } else {
      CallbackExtends(s1, cb);
      DispatchMovesUp(s0, RunCallback(s1, cb).s, t);
    }
  }

  lemma YieldToMovesUp(s: State, u: Tid, t: Tid)
    requires u in s.status && YieldExecution(s, Runnable, Some(u), NoCallback).Step?
             && Fresh(YieldExecution(s, Runnable, Some(u), NoCallback).s)
    ensures MovesUp(s, YieldExecution(s, Runnable, Some(u), NoCallback).s, t)
  {
    if s.status[u].Runnable? || s.status[u].Running? {
      var s2 := AddToRun(WithStatus(s, s.running, Runnable), s.running);
      DispatchToMovesUp(s, s2, u, t);
    } else {
      ExtendsMovesUp(s, s, t);
    }
  }

  lemma WakeMovesUp(s0: State, s: State, u: Tid, safe: bool, t: Tid)
    requires s.runq == s0.runq && s.picks == s0.picks
    requires MakeThreadRunnable(s, u, safe).Step?
    ensures MovesUp(s0, MakeThreadRunnable(s, u, safe).s, t)
  {
    ExtendsMovesUp(s0, MakeThreadRunnable(s, u, safe).s, t);
  }

  lemma CallMovesUp(s: State, call: Call, t: Tid)
    requires DoCall(s, call).Step? && Fresh(DoCall(s, call).s)
    ensures MovesUp(s, DoCall(s, call).s, t)
  {
    match call
    case Yield(target) =>
      if target == None {
        YieldMovesUp(s, s, Runnable, NoCallback, t);
      } else if target.value in s.status {
        YieldToMovesUp(s, target.value, t);
      } else {
        ExtendsMovesUp(s, s, t);
      }
    case Deschedule => YieldMovesUp(s, s, Descheduled, NoCallback, t);
    case MakeRunnable(u) => QuietMovesUp(s, call, t);
    case Wait(m) => YieldMovesUp(s, s, Blocked, StoreParked(m), t);
    case Vanish(cb) => YieldMovesUp(s, s, Dead, cb, t);
    case _ => QuietMovesUp(s, call, t);
  }

  lemma QuietMovesUp(s: State, call: Call, t: Tid)
    requires call.MakeRunnable? || call.Create? || call.Start? || call.Lock? || call.Unlocks? || call.Sleep?
    requires DoCall(s, call).Step? && Fresh(DoCall(s, call).s)
    ensures MovesUp(s, DoCall(s, call).s, t)
  {
    ExtendsMovesUp(s, DoCall(s, call).s, t);
  }

  lemma GoMovesUp(s: State, pc: Pc, t: Tid)
    requires GoStep(s, pc).Step? && Fresh(GoStep(s, pc).s)
    ensures MovesUp(s, GoStep(s, pc).s, t)
  {
    match pc
    case LockGap(m, toSleep) =>
      YieldMovesUp(s, WithPc(s, s.running, LockWait(m, toSleep)), Blocked, StoreInMutex(m), t);
    case LockWait(m, toSleep) => ExtendsMovesUp(s, GoStep(s, pc).s, t);
    case Waking(u) => WakeMovesUp(s, WithPc(s, s.running, Idle), u, false, t);
    case SleepHasMux => YieldMovesUp(s, WithPc(s, s.running, Idle), Blocked, StoreAsleep, t);
  }

  lemma ScanMovesUp(s: State, c: Scan, t: Tid)
    requires ScanStep(s, c).Step? && Fresh(ScanStep(s, c).s)
    ensures MovesUp(s, ScanStep(s, c).s, t)
  {
    match c.phase
    case ScanGap => YieldMovesUp(s, WithScan(s, c.(phase := ScanWait)), Blocked, StoreInMutex(s.sleepMux), t);
    case ScanWake(u) => WakeMovesUp(s, WithScan(s, c.(phase := ScanLoop)), u, false, t);
    case ScanHand(u) => WakeMovesUp(s, WithScan(s, c.(phase := ScanDone)), u, false, t);
    case _ => ExtendsMovesUp(s, ScanStep(s, c).s, t);
  }

  lemma TickMovesUp(s: State, t: Tid)
    requires Tick(s).Step? && Fresh(Tick(s).s)
    ensures MovesUp(s, Tick(s).s, t)
  {
    var s1 := s.(ticks := s.ticks + 1);
    if s.scan == None && s1.ticks >= s.earliest {
      ExtendsMovesUp(s, Tick(s).s, t);
    } else if s1.ticks % WAIT_TICKS == 0 {
      DispatchMovesUp(s, AddToRun(s1, s1.running), t);
    } else {
      ExtendsMovesUp(s, s1, t);
    }
  }

  lemma NextMovesUp(s: State, a: Action, t: Tid)
    requires Inv(s) && !SelfYield(s, a) && Next(s, a).Step?
    ensures MovesUp(s, Next(s, a).s, t) && Inv(Next(s, a).s)
  {
    StepGood(s, a);
    var h :| InvAt(Next(s, a).s, h);
    RunnerFree(Next(s, a).s, h);
    match a
    case Ticks => TickMovesUp(s, t);
    case Preempts => DispatchMovesUp(s, AddToRun(s, s.running), t);
    case Goes =>
      if Scanning(s) {
        ScanMovesUp(s, s.scan.value, t);
      } else {
        GoMovesUp(s, s.pc[s.running], t);
      }
    case Calls(call) => CallMovesUp(s, call, t);
  }

  /** t is on the runnable queue before every step of the run and at its end. */
  predicate QueuedThroughout(s: State, acts: seq<Action>, t: Tid)
    decreases |acts|
  {
    t in s.runq
    && (acts == []
        || match Next(s, acts[0])
           case Step(s') => QueuedThroughout(s', acts[1..], t)
           case Disabled => QueuedThroughout(s, acts[1..], t)
           case Panic(_) => true)
  }

  /** Bounded waiting: while a thread stays queued, its index falls by one with every get_next_run, so a
      thread at index k is dispatched by the (k+1)-th at the latest. */
  lemma {:induction false} BoundedWaiting(s: State, acts: seq<Action>, t: Tid)
    requires Inv(s) && NoSelfYield(s, acts)
    requires QueuedThroughout(s, acts, t) && Run(s, acts).Step?
    ensures var s' := Run(s, acts).s;
            && t in s'.runq
            && s.picks <= s'.picks
            && Index(s'.runq, t) + (s'.picks - s.picks) <= Index(s.runq, t)
    decreases |acts|
  {
    if acts != [] {
      match Next(s, acts[0])
      case Step(s') =>
        NextMovesUp(s, acts[0], t);
        BoundedWaiting(s', acts[1..], t);
      case Disabled => BoundedWaiting(s, acts[1..], t);
    }
  }

  // ------------------------------------------------------------------ waiters of a free mutex

  ghost predicate WaitersOwned(s: State) {
    forall m {:trigger FreeIsEmpty(s, m)} :: FreeIsEmpty(s, m)
  }

  /** The thread is about to block on a mutex, and somebody owns it. */
  predicate GapOwned(s: State, a: Action) {
    a == Goes ==>
      && (!Scanning(s) && s.running in s.pc && s.pc[s.running].LockGap? && s.pc[s.running].m in s.mutexes
          ==> s.mutexes[s.pc[s.running].m].owned)
      && (Scanning(s) && s.scan.value.phase.ScanGap? && s.sleepMux in s.mutexes ==> s.mutexes[s.sleepMux].owned)
  }

  lemma SameMutexes(s: State, s': State)
    requires WaitersOwned(s) && s'.mutexes == s.mutexes
    ensures WaitersOwned(s')
  {
    forall m
      ensures FreeIsEmpty(s', m)
    {
      assert FreeIsEmpty(s, m);
    }
  }

  lemma OneMutex(s: State, s': State, m: Mid)
    requires WaitersOwned(s) && m in s.mutexes && m in s'.mutexes && s'.mutexes == s.mutexes[m := s'.mutexes[m]]
    requires FreeIsEmpty(s', m)
    ensures WaitersOwned(s')
  {
    forall k
      ensures FreeIsEmpty(s', k)
    {
      assert FreeIsEmpty(s, k);
    }
  }

  lemma SafeUnlockOwned(s: State, m: Mid)
    requires WaitersOwned(s) && SafeUnlock(s, m).Step?
    ensures WaitersOwned(SafeUnlock(s, m).s)
  {
    OneMutex(s, SafeUnlock(s, m).s, m);
  }

  lemma CallbackOwned(s: State, cb: Callback)
    requires WaitersOwned(s) && RunCallback(s, cb).Step?
    requires cb.StoreInMutex? && cb.m in s.mutexes ==> s.mutexes[cb.m].owned
    ensures WaitersOwned(RunCallback(s, cb).s)
  {
    match cb
    case NoCallback =>
    case StoreInMutex(m) => OneMutex(s, Enqueued(s, m), m);
    case StoreAsleep =>
      SameMutexes(s, StoredAsleep(s));
      SafeUnlockOwned(StoredAsleep(s), s.sleepMux);
    case StoreParked(m) =>
      SameMutexes(s, s.(parked := s.parked + {s.running}));
      SafeUnlockOwned(s.(parked := s.parked + {s.running}), m);
    case UnlockMux(m) => SafeUnlockOwned(s, m);
    case AssignChild(m, u) =>
      SameMutexes(s, s.(parked := s.parked - {u}));
      SafeUnlockOwned(s.(parked := s.parked - {u}), m);
      SameMutexes(SafeUnlock(s.(parked := s.parked - {u}), m).s, RunCallback(s, cb).s);
  }

  lemma PickKeepsMutexes(s: State, target: Option<Tid>)
    requires PickNext(s, target).Step?
    ensures PickNext(s, target).s.mutexes == s.mutexes && SleepersOf(PickNext(s, target).s) == SleepersOf(s)
  {
  }

  lemma YieldOwned(s: State, store: Status, target: Option<Tid>, cb: Callback)
    requires WaitersOwned(s) && (target.Some? ==> target.value in s.status)
    requires YieldExecution(s, store, target, cb).Step?
    requires cb.StoreInMutex? && cb.m in s.mutexes ==> s.mutexes[cb.m].owned
    ensures WaitersOwned(YieldExecution(s, store, target, cb).s)
  {
    var r, o := YieldExecution(s, store, target, cb).s, StoreRunning(s, store, cb);
    if r != s {
      var s1 := WithStatus(s, s.running, store);
      SameMutexes(s, s1);
      if store.Runnable? {
        SameMutexes(s1, o.s);
      } else {
        CallbackOwned(s1, cb);
      }
      PickKeepsMutexes(o.s, target);
      SameMutexes(o.s, r);
    }
  }

  lemma TryOwned(s: State, m: Mid, won: Pc, lost: Pc)
    requires WaitersOwned(s) && LockTry(s, m, won, lost).Step?
    ensures WaitersOwned(LockTry(s, m, won, lost).s)
  {
    OneMutex(s, LockTry(s, m, won, lost).s, m);
  }

  lemma CallOwned(s: State, call: Call)
    requires WaitersOwned(s) && DoCall(s, call).Step?
    ensures WaitersOwned(DoCall(s, call).s)
  {
    var s' := DoCall(s, call).s;
    match call
    case Yield(target) =>
      if target.Some? && target.value !in s.status {
        SameMutexes(s, s');
      } else {
        YieldOwned(s, Runnable, target, NoCallback);
      }
    case Deschedule => YieldOwned(s, Descheduled, None, NoCallback);
    case Lock(m) => TryOwned(s, m, Idle, LockGap(m, false));
    case Unlocks(m) => OneMutex(s, s', m);
    case Sleep(k) =>
      if k <= 0 {
        SameMutexes(s, s');
      } else {
        var s1 := s.(expiry := s.expiry[s.running := (s.ticks + k) % (UINT_MAX + 1)]);
        SameMutexes(s, s1);
        TryOwned(s1, s.sleepMux, SleepHasMux, LockGap(s.sleepMux, true));
      }
    case Wait(m) => YieldOwned(s, Blocked, None, StoreParked(m));
    case Vanish(cb) => YieldOwned(s, Dead, None, cb);
    case _ => SameMutexes(s, s');
  }

  lemma GoOwned(s: State, pc: Pc)
    requires WaitersOwned(s) && GoStep(s, pc).Step?
    requires pc.LockGap? && pc.m in s.mutexes ==> s.mutexes[pc.m].owned
    ensures WaitersOwned(GoStep(s, pc).s)
  {
    match pc
    case LockGap(m, toSleep) =>
      SameMutexes(s, WithPc(s, s.running, LockWait(m, toSleep)));
      YieldOwned(WithPc(s, s.running, LockWait(m, toSleep)), Blocked, None, StoreInMutex(m));
    case LockWait(m, toSleep) => OneMutex(s, GoStep(s, pc).s, m);
    case Waking(u) => SameMutexes(s, GoStep(s, pc).s);
    case SleepHasMux =>
      SameMutexes(s, WithPc(s, s.running, Idle));
      YieldOwned(WithPc(s, s.running, Idle), Blocked, None, StoreAsleep);
  }

  lemma ScanOwned(s: State, c: Scan)
    requires WaitersOwned(s) && ScanStep(s, c).Step?
    requires c.phase.ScanGap? && s.sleepMux in s.mutexes ==> s.mutexes[s.sleepMux].owned
    ensures WaitersOwned(ScanStep(s, c).s)
  {
    var s' := ScanStep(s, c).s;
    match c.phase
    case ScanGap =>
      SameMutexes(s, WithScan(s, c.(phase := ScanWait)));
      YieldOwned(WithScan(s, c.(phase := ScanWait)), Blocked, None, StoreInMutex(s.sleepMux));
    case ScanWait => OneMutex(s, s', s.sleepMux);
    case ScanLoop => LoopOwned(s, c);
    case _ => SameMutexes(s, s');
  }

  lemma LoopOwned(s: State, c: Scan)
    requires WaitersOwned(s) && ScanStep(s, c).Step? && c.phase == ScanLoop
    ensures WaitersOwned(ScanStep(s, c).s)
  {
    if c.rest == [] {
      OneMutex(s, ScanStep(s, c).s, s.sleepMux);
    } else {
      SameMutexes(s, ScanStep(s, c).s);
    }
  }

  lemma NextOwned(s: State, a: Action)
    requires WaitersOwned(s) && GapOwned(s, a) && Next(s, a).Step?
    ensures WaitersOwned(Next(s, a).s)
  {
    match a
    case Ticks =>
      if s.scan == None && s.ticks + 1 >= s.earliest {
        OneMutex(s, Next(s, a).s, s.sleepMux);
      } else {
        SameMutexes(s, Next(s, a).s);
      }
    case Preempts => SameMutexes(s, Next(s, a).s);
    case Goes =>
      if Scanning(s) {
        ScanOwned(s, s.scan.value);
      } else {
        GoOwned(s, s.pc[s.running]);
      }
    case Calls(call) => CallOwned(s, call);
  }

  /** Every block of the run finds the mutex still owned. */
  predicate GapsOwned(s: State, acts: seq<Action>)
    decreases |acts|
  {
    acts == [] || (GapOwned(s, acts[0])
                   && match Next(s, acts[0])
                      case Step(s') => GapsOwned(s', acts[1..])
                      case Disabled => GapsOwned(s, acts[1..])
                      case Panic(_) => true)
  }

  /** When no owner unlocks in that gap, a mutex with waiters is owned, in every state of the run. */
  lemma {:induction false} RunWaitersOwned(s: State, acts: seq<Action>)
    requires WaitersOwned(s) && GapsOwned(s, acts) && Run(s, acts).Step?
    ensures WaitersOwned(Run(s, acts).s)
    decreases |acts|
  {
    if acts != [] {
      match Next(s, acts[0])
      case Step(s') =>
        NextOwned(s, acts[0]);
        RunWaitersOwned(s', acts[1..]);
      case Disabled => RunWaitersOwned(s, acts[1..]);
    }
  }

  // ------------------------------------------------------------------ the index over runs

  /** Outside the window of a scan, the index is the minimum of the sleep queue. */
  ghost predicate IndexExact(s: State) {
    Sleep.Settled(SleepersOf(s)) ==> Exact(SleepersOf(s))
  }

  /** This step does not end a scan behind whose back a date it serves was stored. */
  predicate ScanClean(s: State, a: Action) {
    a == Goes && Scanning(s) && s.scan.value.phase == ScanLoop && s.scan.value.rest == [] ==> !s.scan.value.low
  }

  ghost predicate SameSleepers(s: State, s': State) {
    && s'.sleepq == s.sleepq && s'.earliest == s.earliest
    && (Sleep.Settled(SleepersOf(s')) ==> Sleep.Settled(SleepersOf(s)))
    && (forall t :: t in s.sleepq && t in s'.expiry ==> t in s.expiry && s'.expiry[t] == s.expiry[t])
    && (forall t :: t in s.sleepq && t in s.expiry ==> t in s'.expiry)
  }

  lemma SameExact(s: State, s': State)
    requires IndexExact(s) && SameSleepers(s, s')
    ensures IndexExact(s')
  {
    var z, z' := SleepersOf(s), SleepersOf(s');
    if Sleep.Settled(z') {
      forall t
        ensures NotBefore(z', t)
      {
        assert NotBefore(z, t);
      }
      if Attained(z) {
        var t :| t in z.queue && t in z.expiry && z.expiry[t] == z.earliest;
        assert t in z'.queue;
      }
    }
  }

  lemma SafeUnlockSleepers(s: State, m: Mid)
    requires SafeUnlock(s, m).Step?
    ensures SleepersOf(SafeUnlock(s, m).s) == SleepersOf(s)
  {
  }

  lemma CallbackSleepers(s: State, cb: Callback)
    requires RunCallback(s, cb).Step? && !cb.StoreAsleep?
    ensures SleepersOf(RunCallback(s, cb).s) == SleepersOf(s)
  {
  }

  lemma YieldSleepers(s: State, store: Status, target: Option<Tid>, cb: Callback)
    requires target.Some? ==> target.value in s.status
    requires YieldExecution(s, store, target, cb).Step? && !cb.StoreAsleep?
    ensures SleepersOf(YieldExecution(s, store, target, cb).s) == SleepersOf(s)
  {
    var r, o := YieldExecution(s, store, target, cb).s, StoreRunning(s, store, cb);
    if r != s {
      if !store.Runnable? {
        CallbackSleepers(WithStatus(s, s.running, store), cb);
      }
      assert SleepersOf(o.s) == SleepersOf(s);
      PickKeepsMutexes(o.s, target);
    }
  }

  lemma CallExact(s: State, call: Call)
    requires Inv(s) && IndexExact(s) && DoCall(s, call).Step?
    ensures IndexExact(DoCall(s, call).s)
  {
    var s' := DoCall(s, call).s;
    var h :| InvAt(s, h);
    RunnerFree(s, h);
    match call
    case Yield(target) =>
      if target.None? || target.value in s.status {
        YieldSleepers(s, Runnable, target, NoCallback);
      }
    case Deschedule => YieldSleepers(s, Descheduled, None, NoCallback);
    case Wait(m) => YieldSleepers(s, Blocked, None, StoreParked(m));
    case Vanish(cb) => YieldSleepers(s, Dead, None, cb);
    case _ =>
      forall t | t in s.sleepq
        ensures t in s.status
      {
        assert ListsOk(s, h, t);
      }
      QuietSleepers(s, call);
      SameExact(s, s');
  }

  lemma QuietSleepers(s: State, call: Call)
    requires call.MakeRunnable? || call.Create? || call.Start? || call.Lock? || call.Unlocks? || call.Sleep?
    requires DoCall(s, call).Step? && s.running !in s.sleepq && s.expiry.Keys == s.status.Keys
    requires forall t :: t in s.sleepq ==> t in s.status
    ensures SameSleepers(s, DoCall(s, call).s)
  {
  }

  lemma GoExact(s: State)
    requires Inv(s) && IndexExact(s) && !Scanning(s) && GoStep(s, s.pc[s.running]).Step?
    ensures IndexExact(GoStep(s, s.pc[s.running]).s)
  {
    var t, pc, s' := s.running, s.pc[s.running], GoStep(s, s.pc[s.running]).s;
    match pc
    case LockGap(m, toSleep) =>
      YieldSleepers(WithPc(s, t, LockWait(m, toSleep)), Blocked, None, StoreInMutex(m));
    case SleepHasMux => SleepBlockExact(s);
    case _ => SameExact(s, s');
  }

  lemma SleepBlockExact(s: State)
    requires Inv(s) && IndexExact(s) && s.pc[s.running] == SleepHasMux && GoStep(s, SleepHasMux).Step?
    ensures IndexExact(GoStep(s, SleepHasMux).s)
  {
    var t := s.running;
    var s1 := WithStatus(WithPc(s, t, Idle), t, Blocked);
    var h :| InvAt(s, h);
    var z := SleepersOf(s);
    assert Dated(z, t);
    if Sleep.Settled(z) {
      Sleep.StoreExact(z, t);
    }
    assert SleepersOf(StoredAsleep(s1)) == Sleep.StoredIn(z, t);
    SafeUnlockSleepers(StoredAsleep(s1), s.sleepMux);
    assert SleepersOf(GoStep(s, SleepHasMux).s) == Sleep.StoredIn(z, t);
  }

  /** A scan that goes on stays in its window. */
  lemma StillScanning(s: State, c: Scan)
    requires s.scan == Some(c) && ScanStep(s, c).Step?
    requires c.phase.ScanGap? || c.phase.ScanWait? || c.phase.ScanWake? || (c.phase.ScanLoop? && c.rest != [])
    ensures !Sleep.Settled(SleepersOf(ScanStep(s, c).s))
  {
    if c.phase.ScanGap? {
      YieldSleepers(WithScan(s, c.(phase := ScanWait)), Blocked, None, StoreInMutex(s.sleepMux));
    }
  }

  lemma ScanExact(s: State, c: Scan)
    requires Inv(s) && IndexExact(s) && Scanning(s) && s.scan == Some(c) && ScanStep(s, c).Step? && ScanClean(s, Goes)
    ensures IndexExact(ScanStep(s, c).s)
  {
    if c.phase.ScanGap? || c.phase.ScanWait? || c.phase.ScanWake? || (c.phase.ScanLoop? && c.rest != []) {
      StillScanning(s, c);
    } else if c.phase.ScanLoop? {
      ScanEndExact(s, c);
    } else {
      SameExact(s, ScanStep(s, c).s);
    }
  }

  lemma ScanEndExact(s: State, c: Scan)
    requires Inv(s) && s.scan == Some(c) && c.phase == ScanLoop && c.rest == [] && !c.low
    requires ScanUnlock(s, c).Step?
    ensures Exact(SleepersOf(ScanUnlock(s, c).s))
  {
    var h :| InvAt(s, h);
    var z, z' := SleepersOf(s), SleepersOf(ScanUnlock(s, c).s);
    assert z'.queue == z.queue && z'.earliest == z.earliest && z'.expiry == z.expiry;
    Sleep.EndIs(z, c);
    forall t
      ensures NotBefore(z', t)
    {
      assert NotBefore(z, t);
    }
    if Attained(z) {
      var t :| t in z.queue && t in z.expiry && z.expiry[t] == z.earliest;
      assert t in z'.queue;
    }
  }

  lemma NextExact(s: State, a: Action)
    requires Inv(s) && IndexExact(s) && ScanClean(s, a) && Next(s, a).Step?
    ensures IndexExact(Next(s, a).s)
  {
    match a
    case Ticks =>
      if s.scan == None && s.ticks + 1 >= s.earliest {
        assert !Sleep.Settled(SleepersOf(Next(s, a).s));
      } else {
        SameExact(s, Next(s, a).s);
      }
    case Preempts => SameExact(s, Next(s, a).s);
    case Goes =>
      if Scanning(s) {
        ScanExact(s, s.scan.value);
      } else {
        GoExact(s);
      }
    case Calls(call) => CallExact(s, call);
  }

  /** No scan of the run ends with such a date stored. */
  predicate ScansClean(s: State, acts: seq<Action>)
    decreases |acts|
  {
    acts == [] || (ScanClean(s, acts[0])
                   && match Next(s, acts[0])
                      case Step(s') => ScansClean(s', acts[1..])
                      case Disabled => ScansClean(s, acts[1..])
                      case Panic(_) => true)
  }

  /** Then the index is exact in every state between scans. */
  lemma {:induction false} RunIndexExact(s: State, acts: seq<Action>)
    requires Inv(s) && IndexExact(s) && NoSelfYield(s, acts) && ScansClean(s, acts) && Run(s, acts).Step?
    ensures IndexExact(Run(s, acts).s)
    decreases |acts|
  {
    if acts != [] {
      StepGood(s, acts[0]);
      match Next(s, acts[0])
      case Step(s') =>
        NextExact(s, acts[0]);
        RunIndexExact(s', acts[1..]);
      case Disabled => RunIndexExact(s, acts[1..]);
    }
  }
}
