/** What holds over every run of the scheduler, the kernel mutex and sleep. */
module SchedulerTheorems {
  import opened Seqs
  import opened Scheduler
  import opened SchedulerInvariant
  import opened SchedulerLocks
  import opened SchedulerSteps
  import opened SchedulerScan
  import opened SchedulerQueues
  import Sleep = SchedulerSleep

  lemma InitialInv(t: Tid, ms: set<Mid>, sleepMux: Mid)
    ensures Inv(Initial(t, ms, sleepMux))
  {
    var s := Initial(t, ms, sleepMux);
    var h: Homes := map[t := Runs];
    InitialLocks(t, ms, sleepMux);
    forall m
      ensures NoDupAt(s, m)
    {
    }
    assert HomeOk(s, h, None, t);
    forall u
      ensures ListsOk(s, h, u) && CarryOk(s, h, u) && Dated(SleepersOf(s), u) && NotBefore(SleepersOf(s), u)
    {
    }
    forall m, u
      ensures WaitersOk(s, h, m, u)
    {
    }
    assert InvAt(s, h);
  }

  lemma InitialLocks(t: Tid, ms: set<Mid>, sleepMux: Mid)
    ensures LocksOk(LocksOf(Initial(t, ms, sleepMux)))
  {
    var l := LocksOf(Initial(t, ms, sleepMux));
    forall m | m in l.mutexes
      ensures MutexOk(l, m)
    {
    }
    forall u, m
      ensures LockOk(l, u, m)
    {
    }
    forall u
      ensures HasMuxOk(l, u)
    {
    }
  }

  // ------------------------------------------------------------------ one step

  /** yield(tid) of the running thread to itself while nobody else is runnable. */
  predicate SelfYield(s: State, a: Action) {
    && a == Calls(Yield(Some(s.running))) && s.runq == []
    && !Scanning(s) && s.running in s.pc && s.pc[s.running] == Idle
  }

  lemma CallStep(s: State, h: Homes, call: Call)
    requires InvAt(s, h) && s.pc[s.running] == Idle && !Scanning(s) && !SelfYield(s, Calls(call))
    ensures Good(DoCall(s, call))
  {
    match call
    case Yield(target) => YieldStep(s, h, target);
    case Deschedule => DescheduleStep(s, h);
    case MakeRunnable(u) => MakeRunnableStep(s, h, u);
    case Create(u) => CreateStep(s, h, u);
    case Start(u) => StartStep(s, h, u);
    case Lock(m) => LockStep(s, h, m);
    case Unlocks(m) => UnlockStep(s, h, m);
    case Sleep(k) => SleepStep(s, h, k);
    case Wait(m) => WaitStep(s, h, m);
    case Vanish(cb) => VanishStep(s, h, cb);
  }

  lemma BaseStep(s: State, h: Homes)
    requires InvAt(s, h) && !Scanning(s)
    ensures Good(GoStep(s, s.pc[s.running]))
  {
    match s.pc[s.running]
    case Idle =>
    case LockGap(m, toSleep) => GapStep(s, h, m, toSleep);
    case LockWait(m, toSleep) => LockReturnStep(s, h, m, toSleep);
    case Waking(u) => WakingStep(s, h, u);
    case SleepHasMux => SleepBlockStep(s, h);
  }

  lemma StepGood(s: State, a: Action)
    requires Inv(s) && !SelfYield(s, a)
    ensures Good(Next(s, a))
  {
    var h: Homes :| InvAt(s, h);
    match a
    case Ticks => TickStep(s, h);
    case Preempts => PreemptStep(s, h);
    case Goes =>
      if Scanning(s) {
        ScanGood(s, h, s.scan.value);
      } else {
        BaseStep(s, h);
      }
    case Calls(call) =>
      if !Scanning(s) && s.pc[s.running] == Idle {
        CallStep(s, h, call);
      }
  }

  /** A step keeps the invariant if and only if it is not a yield to oneself with nobody else runnable;
      either way no affirm of the scheduler, the mutex or sleep fails in it. */
  lemma StepKeepsIff(s: State, a: Action)
    requires Inv(s)
    ensures Next(s, a) != Panic(Broken)
    ensures Next(s, a).Step? ==> (Inv(Next(s, a).s) <==> !SelfYield(s, a))
  {
    if SelfYield(s, a) {
      SelfYieldBreaks(s);
    } else {
      StepGood(s, a);
    }
  }

  // ------------------------------------------------------------------ runs

  /** No step of the run is such a yield. */
  predicate NoSelfYield(s: State, acts: seq<Action>)
    decreases |acts|
  {
    acts == [] || (!SelfYield(s, acts[0])
                   && match Next(s, acts[0])
                      case Step(s') => NoSelfYield(s', acts[1..])
                      case Disabled => NoSelfYield(s, acts[1..])
                      case Panic(_) => true)
  }

  lemma {:induction false} RunInv(s: State, acts: seq<Action>)
    requires Inv(s) && NoSelfYield(s, acts)
    ensures Good(Run(s, acts))
    decreases |acts|
  {
    if acts != [] {
      StepGood(s, acts[0]);
      match Next(s, acts[0])
      case Step(s') => RunInv(s', acts[1..]);
      case Disabled => RunInv(s, acts[1..]);
      case Panic(_) =>
    }
  }

  ghost predicate Starts(s: State, t: Tid, ms: set<Mid>, sleepMux: Mid, acts: seq<Action>) {
    Run(Initial(t, ms, sleepMux), acts) == Step(s) && NoSelfYield(Initial(t, ms, sleepMux), acts)
  }

  ghost predicate Reachable(s: State) {
    exists t: Tid, ms: set<Mid>, sleepMux: Mid, acts :: Starts(s, t, ms, sleepMux, acts)
  }

  lemma ReachableInv(s: State)
    requires Reachable(s)
    ensures Inv(s)
  {
    var t: Tid, ms: set<Mid>, sleepMux: Mid, acts :| Starts(s, t, ms, sleepMux, acts);
    InitialInv(t, ms, sleepMux);
    RunInv(Initial(t, ms, sleepMux), acts);
  }

  // ------------------------------------------------------------------ one link, one queue

  ghost function Count(b: bool): nat {
    if b then 1 else 0
  }

  ghost predicate Waits(s: State, t: Tid, m: Mid) {
    m in s.mutexes && t in s.mutexes[m].waiters
  }

  /** A thread is on one queue of the scheduler's link at most, once; the running thread is on none. */
  lemma OneLinkOneQueue(s: State, t: Tid)
    requires Reachable(s)
    ensures Count(t == s.running) + Count(t in s.runq) + Count(t in s.sleepq) + Count(exists m :: Waits(s, t, m)) <= 1
    ensures forall m, k :: Waits(s, t, m) && Waits(s, t, k) ==> m == k
    ensures NoDup(s.runq) && NoDup(s.sleepq) && forall m :: m in s.mutexes ==> NoDup(s.mutexes[m].waiters)
  {
    ReachableInv(s);
    var h: Homes :| InvAt(s, h);
    RunnerFree(s, h);
    assert ListsOk(s, h, t);
    forall m | Waits(s, t, m)
      ensures t in h && h[t] == OnMutex(m)
    {
      assert WaitersOk(s, h, m, t);
    }
  }

  /** The queues agree with the status: a thread is RUNNABLE exactly on the runnable queue. */
  lemma RunnableMeansQueued(s: State, t: Tid)
    requires Reachable(s) && t in s.status
    ensures t == s.running ==> s.status[t].Running? || s.status[t].Runnable?
    ensures t != s.running ==> !s.status[t].Running? && (s.status[t].Runnable? <==> t in s.runq)
  {
    ReachableInv(s);
    var h: Homes :| InvAt(s, h);
    assert HomeOk(s, h, None, t) && ListsOk(s, h, t) && HomeOk(s, h, None, s.running);
  }

  /** Threads on a mutex queue, asleep or parked are BLOCKED, and no BLOCKED thread is lost: it is on one of
      these, or about to be made runnable by the only thread that took it off. */
  lemma BlockedMeansStored(s: State, t: Tid)
    requires Reachable(s) && t in s.status
    ensures s.status[t].Blocked? <==>
              (exists m :: Waits(s, t, m)) || t in s.sleepq || t in s.parked
              || (exists x :: x in s.pc && s.pc[x] == Waking(t)) || ScanCarries(s) == Some(t)
    ensures forall x, y :: x in s.pc && y in s.pc && s.pc[x] == Waking(t) && s.pc[y] == Waking(t) ==> x == y
  {
    ReachableInv(s);
    var h: Homes :| InvAt(s, h);
    assert HomeOk(s, h, None, t) && ListsOk(s, h, t);
    forall m | Waits(s, t, m)
      ensures h[t] == OnMutex(m)
    {
      assert WaitersOk(s, h, m, t);
    }
    forall x | x in s.pc && s.pc[x] == Waking(t)
      ensures h[t] == Carried(x)
    {
      assert CarryOk(s, h, x);
    }
    if h[t].OnMutex? {
      assert Waits(s, t, h[t].m);
    }
  }

  // ------------------------------------------------------------------ the mutex

  /** Mutual exclusion: whoever is between lock and unlock is the owner, hence alone; and hand-over is
      in the order of arrival. */
  lemma MutexExclusion(s: State, m: Mid)
    requires Reachable(s) && m in s.mutexes
    ensures var x := s.mutexes[m];
            && (forall t, u :: t in x.inside && u in x.inside ==> t == u && x.owned && t == x.owner)
            && x.enq == x.granted + x.waiters
            && x.granted <= x.enq
            && (x.owned && x.inside == {} ==> WaitsFor(LocksOf(s), x.owner, m) && x.owner !in x.waiters)
  {
    ReachableInv(s);
    var h: Homes :| InvAt(s, h);
    var x := s.mutexes[m];
    assert MutexOk(LocksOf(s), m);
    assert x.enq[..|x.granted|] == x.granted;
  }

  /** A thread that blocked in mutex_lock gets past its yield only as the owner, with nobody inside. */
  lemma ResumesAsOwner(s: State)
    requires Reachable(s) && s.running in s.pc && s.pc[s.running].LockWait? && !Scanning(s)
    ensures var m := s.pc[s.running].m;
            Owns(s, m) && s.mutexes[m].inside == {} && Next(s, Goes).Step?
            && Next(s, Goes).s.mutexes[m].inside == {s.running}
  {
    ReachableInv(s);
    var h: Homes :| InvAt(s, h);
    LockReturnStep(s, h, s.pc[s.running].m, s.pc[s.running].toSleep);
  }

  ghost predicate FreeIsEmpty(s: State, m: Mid) {
    m in s.mutexes && s.mutexes[m].waiters != [] ==> s.mutexes[m].owned
  }

  /** The block at the end of mutex_lock leaves a waiter on a free mutex exactly when the owner unlocked in
      the gap after the test. */
  lemma GapLeavesWaiter(s: State, m: Mid, toSleep: bool)
    requires Inv(s) && s.pc[s.running] == LockGap(m, toSleep) && !Scanning(s)
    requires Next(s, Goes).Step?
    ensures var s' := Next(s, Goes).s;
            && m in s.mutexes && m in s'.mutexes
            && s'.mutexes[m].waiters == s.mutexes[m].waiters + [s.running]
            && (FreeIsEmpty(s', m) <==> s.mutexes[m].owned)
  {
    var h: Homes :| InvAt(s, h);
    assert LockOk(LocksOf(s), s.running, m);
  }

  // ------------------------------------------------------------------ the sleep index

  /** A tick that skips the scan because of the index skips no thread whose time has come. */
  lemma SkippedTickSkipsNobody(s: State, t: Tid)
    requires Reachable(s) && s.scan == None && s.ticks + 1 < s.earliest
    requires t in s.sleepq
    ensures t in s.expiry && s.ticks + 1 < s.expiry[t]
  {
    ReachableInv(s);
    var h: Homes :| InvAt(s, h);
    assert Dated(SleepersOf(s), t) && NotBefore(SleepersOf(s), t);
  }

  /** At the end of its loop a scan has woken exactly the sleepers whose date had come, in the order of
      the queue it found, and left the others; the index is then the minimum over the queue if and only
      if no date up to the scan's tick was stored between the reset and the lock. */
  lemma ScanWakesExactly(s: State, c: Scan)
    requires Reachable(s) && s.scan == Some(c) && c.phase == ScanLoop && c.rest == []
    ensures c.woken == UpTo(c.start, c.dates, c.now) && s.sleepq == After(c.start, c.dates, c.now)
    ensures Exact(SleepersOf(s)) <==> !c.low
    ensures forall t :: t in s.sleepq ==> t in s.expiry && s.earliest <= s.expiry[t] && c.now < s.expiry[t]
  {
    ReachableInv(s);
    var h: Homes :| InvAt(s, h);
    Sleep.EndIs(SleepersOf(s), c);
    forall t | t in s.sleepq
      ensures t in s.expiry && s.earliest <= s.expiry[t] && c.now < s.expiry[t]
    {
      assert PassedOk(SleepersOf(s), c, t);
    }
  }
}
