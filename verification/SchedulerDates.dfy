/** sleep: the date a call stores, and that nobody wakes before it. */
module SchedulerDates {
  import opened Seqs
  import opened Scheduler
  import opened SchedulerInvariant
  import opened SchedulerLocks
  import opened SchedulerSteps
  import opened SchedulerScan
  import opened SchedulerTheorems
  import opened SchedulerOutcomes

  // ------------------------------------------------------------------ one call

  /** sleep of no positive number of ticks does nothing; otherwise the caller's date is the tick count plus its argument
      as long as that fits an unsigned int, and the caller goes on as mutex_lock of sleep_mux does. */
  lemma SleepOutcome(s: State, k: int)
    requires CanCall(s)
    ensures k <= 0 ==> Next(s, Calls(Sleep(k))) == Step(s)
    ensures k > 0 ==> (Next(s, Calls(Sleep(k))).Step? <==> !Owns(s, s.sleepMux))
    ensures k > 0 && !Owns(s, s.sleepMux) ==>
              var s', x := Next(s, Calls(Sleep(k))).s, s.mutexes[s.sleepMux];
              && SameThreads(s, s') && OnlyMutex(s, s', s.sleepMux)
              && s'.sleepq == s.sleepq && s'.ticks == s.ticks && s'.earliest == s.earliest && s'.scan == s.scan
              && s'.expiry == s.expiry[s.running := s'.expiry[s.running]]
              && (s.ticks + k <= UINT_MAX <==> s'.expiry[s.running] == s.ticks + k)
              && (if x.owned then s'.mutexes[s.sleepMux] == x && s'.pc == s.pc[s.running := LockGap(s.sleepMux, true)]
                  else HeldBy(s'.mutexes[s.sleepMux], s.running) && s'.pc == s.pc[s.running := SleepHasMux])
  {
    var h := Facts(s);
    assert MutexOk(LocksOf(s), s.sleepMux);
  }

  /** For an argument that is an int, the date lies in the past exactly when the sum does not fit. */
  lemma DateInThePastIff(s: State, k: int)
    requires CanCall(s) && 0 < k <= 0x7FFF_FFFF && s.ticks <= UINT_MAX && Next(s, Calls(Sleep(k))).Step?
    ensures s.running in Next(s, Calls(Sleep(k))).s.expiry
    ensures Next(s, Calls(Sleep(k))).s.expiry[s.running] < s.ticks <==> s.ticks + k > UINT_MAX
  {
    SleepOutcome(s, k);
  }

  /** With sleep_mux in hand the caller joins the end of the sleep queue, the index takes its date into account, and the
      mutex is released. */
  lemma FallsAsleep(s: State)
    requires IsAt(s, SleepHasMux)
    ensures s.running in s.expiry && Owns(s, s.sleepMux)
    ensures s.runq == [] && s.mutexes[s.sleepMux].waiters == [] ==> Next(s, Goes) == Panic(Deadlock)
    ensures s.runq != [] || s.mutexes[s.sleepMux].waiters != [] ==>
              && Next(s, Goes).Step?
              && var s' := Next(s, Goes).s;
                 && LeavesWith(s, s', s.sleepMux, Blocked, FirstWaiter(s, s.sleepMux))
                 && s'.sleepq == s.sleepq + [s.running] && s'.expiry == s.expiry && s'.ticks == s.ticks
                 && s'.earliest == Min(s.earliest, s.expiry[s.running])
                 && s'.pc == s.pc[s.running := Idle] && s'.parked == s.parked
  {
    var h := Facts(s);
    assert HasMuxOk(LocksOf(s), s.running);
    var s0 := WithStatus(WithPc(s, s.running, Idle), s.running, Blocked);
    var s1 := StoredAsleep(s0);
    LeavingIs(s, s1, s.sleepMux, Blocked);
    LeavesIs(s, s1, s.sleepMux, Blocked);
    YieldIs(WithPc(s, s.running, Idle), Blocked, StoreAsleep, s1, s.sleepMux);
  }

  /** A tick counts, and scans the sleep queue when no scan is under way and the index has come. */
  lemma TickScans(s: State)
    requires Inv(s) && s.ticks + 1 < UINT_MAX && s.scan == None && s.earliest <= s.ticks + 1
    ensures Next(s, Ticks).Step? <==> !Owns(s, s.sleepMux)
    ensures !Owns(s, s.sleepMux) ==>
              var s', x := Next(s, Ticks).s, s.mutexes[s.sleepMux];
              && SameThreads(s, s') && s'.ticks == s.ticks + 1 && s'.pc == s.pc && s'.expiry == s.expiry
              && s'.sleepq == s.sleepq && s'.earliest == UINT_MAX && Scanning(s') && s'.scan.value.now == s.ticks + 1
              && (x.owned ==> s'.scan.value.phase == ScanGap && s'.mutexes == s.mutexes)
              && (!x.owned ==>
                    && s'.scan.value.phase == ScanLoop && s'.scan.value.rest == s.sleepq
                    && HeldBy(s'.mutexes[s.sleepMux], s.running))
  {
    var h := Facts(s);
    assert MutexOk(LocksOf(s), s.sleepMux);
  }

  /** Otherwise every WAIT_TICKS-th tick goes round the runnable queue. */
  lemma TickPasses(s: State)
    requires Inv(s) && s.ticks + 1 < UINT_MAX && !(s.scan == None && s.earliest <= s.ticks + 1)
    ensures Next(s, Ticks).Step?
    ensures var s' := Next(s, Ticks).s;
            && s'.ticks == s.ticks + 1 && s'.scan == s.scan && s'.pc == s.pc && s'.expiry == s.expiry
            && s'.sleepq == s.sleepq && s'.mutexes == s.mutexes && s'.earliest == s.earliest
            && (if (s.ticks + 1) % WAIT_TICKS != 0 then SameThreads(s, s')
                else GivesWay(s, s', Runnable, s.runq + [s.running], {}))
  {
    var h := Facts(s);
    var s1 := s.(ticks := s.ticks + 1);
    RoundIs(s1);
    PassIs(s);
  }

  lemma PassIs(s: State)
    requires s.running in s.pc && s.ticks + 1 < UINT_MAX && !(s.scan == None && s.earliest <= s.ticks + 1)
    ensures var s1 := s.(ticks := s.ticks + 1);
            Next(s, Ticks) == if s1.ticks % WAIT_TICKS == 0 then Preempt(s1) else Step(s1)
  {
  }

  /** The kernel does not outlive its tick counter. */
  lemma LastTick(s: State)
    requires Inv(s) && s.ticks + 1 >= UINT_MAX
    ensures Next(s, Ticks) == Panic(TooLong)
  {
    var h := Facts(s);
  }

  /** A scan that finds sleep_mux owned waits for it like anybody else, ... */
  lemma ScanBlocksOutcome(s: State)
    requires InScan(s, ScanGap)
    ensures s.runq == [] ==> Next(s, Goes) == Panic(Deadlock)
    ensures s.runq != [] ==>
              && Next(s, Goes).Step?
              && var s' := Next(s, Goes).s;
                 && GivesWay(s, s', Blocked, s.runq, {}) && s'.sleepq == s.sleepq && s'.expiry == s.expiry
                 && s'.pc == s.pc && s'.scan == Some(s.scan.value.(phase := ScanWait)) && OnlyMutex(s, s', s.sleepMux)
                 && s'.mutexes[s.sleepMux].waiters == s.mutexes[s.sleepMux].waiters + [s.running]
  {
    var h := Facts(s);
  }

  /** ... and goes through the queue it finds once it is the owner. */
  lemma ScanResumesOutcome(s: State)
    requires InScan(s, ScanWait)
    ensures Next(s, Goes).Step?
    ensures var s' := Next(s, Goes).s;
            && SameThreads(s, s') && s'.sleepq == s.sleepq && s'.expiry == s.expiry && s'.pc == s.pc
            && OnlyMutex(s, s', s.sleepMux) && HeldBy(s'.mutexes[s.sleepMux], s.running)
            && Scanning(s') && s'.scan.value.phase == ScanLoop && s'.scan.value.rest == s.sleepq
            && s'.scan.value.now == s.scan.value.now
  {
    var h := Facts(s);
    assert LockOk(LocksOf(s), s.running, s.sleepMux) && MutexOk(LocksOf(s), s.sleepMux);
  }

  /** One turn of the scan's loop: a sleeper whose date has come leaves the queue to be woken, another stays and the index
      takes its date into account. */
  lemma ScanTurnOutcome(s: State, c: Scan)
    requires InScan(s, ScanLoop) && s.scan == Some(c) && c.rest != []
    ensures Next(s, Goes).Step? && c.rest[0] in s.sleepq && c.rest[0] in s.expiry
    ensures var s', u := Next(s, Goes).s, c.rest[0];
            && SameThreads(s, s') && s'.expiry == s.expiry && s'.pc == s.pc && s'.mutexes == s.mutexes
            && s'.ticks == s.ticks && Scanning(s') && s'.scan.value.rest == c.rest[1..] && s'.scan.value.now == c.now
            && (if s.expiry[u] <= c.now then
                  && s'.scan.value.phase == ScanWake(u) && u !in s'.sleepq
                  && (forall t :: t != u ==> (t in s'.sleepq <==> t in s.sleepq)) && s'.earliest == s.earliest
                else
                  && s'.scan.value.phase == ScanLoop && s'.sleepq == s.sleepq
                  && s'.earliest == Min(s.earliest, s.expiry[u]))
  {
    var h := Facts(s);
    LoopTurnIs(s, h, c);
    NoDupWithout(s.sleepq, c.rest[0]);
  }

  lemma LoopTurnIs(s: State, h: Homes, c: Scan)
    requires InvAt(s, h) && s.scan == Some(c) && c.phase == ScanLoop && c.rest != []
    ensures c.rest[0] in s.sleepq && c.rest[0] in s.expiry && NoDup(s.sleepq)
  {
    var z := SleepersOf(s);
    assert ScanOk(z, c) && LoopOk(z, c);
    assert z.queue[|c.kept|] == c.rest[0];
    assert Dated(z, c.rest[0]);
  }

  /** A thread the scan took off the queue runs at once; the thread the tick interrupted goes on with the scan later. */
  lemma ScanWakesOutcome(s: State, u: Tid)
    requires InScan(s, ScanWake(u))
    ensures Next(s, Goes).Step?
    ensures var s' := Next(s, Goes).s;
            && LetsRun(s, s', u) && s'.pc == s.pc && s'.mutexes == s.mutexes && s'.parked == s.parked
            && s'.sleepq == s.sleepq && s'.expiry == s.expiry && s'.earliest == s.earliest
            && s'.scan == Some(s.scan.value.(phase := ScanLoop))
  {
    var h := Facts(s);
    assert HomeOk(s, h, None, u);
    MadeRunnable(WithScan(s, s.scan.value.(phase := ScanLoop)), u);
  }

  lemma MadeRunnable(s: State, u: Tid)
    requires u in s.status && s.status[u] == Blocked && u != s.running && s.running in s.status
    ensures MakeThreadRunnable(s, u, false).Step?
    ensures LetsRun(s, MakeThreadRunnable(s, u, false).s, u) && SameRest(s, MakeThreadRunnable(s, u, false).s)
  {
  }

  /** At the end of its loop the scan releases sleep_mux, which the thread that waited longest gets and runs with. */
  lemma ScanUnlocksOutcome(s: State, c: Scan)
    requires InScan(s, ScanLoop) && s.scan == Some(c) && c.rest == []
    ensures Next(s, Goes).Step?
    ensures var s', x := Next(s, Goes).s, s.mutexes[s.sleepMux];
            && SameThreads(s, s') && OnlyMutex(s, s', s.sleepMux) && LetGo(x, s'.mutexes[s.sleepMux])
            && s'.sleepq == s.sleepq && s'.expiry == s.expiry && s'.earliest == s.earliest && s'.pc == s.pc
            && s'.scan == Some(c.(phase := if x.waiters == [] then ScanDone else ScanHand(x.waiters[0])))
  {
    var h := Facts(s);
  }

  lemma ScanHandsOutcome(s: State, u: Tid)
    requires InScan(s, ScanHand(u))
    ensures Next(s, Goes).Step?
    ensures var s' := Next(s, Goes).s;
            && LetsRun(s, s', u) && s'.pc == s.pc && s'.mutexes == s.mutexes && s'.parked == s.parked
            && s'.sleepq == s.sleepq && s'.expiry == s.expiry && s'.earliest == s.earliest
            && s'.scan == Some(s.scan.value.(phase := ScanDone))
  {
    var h := Facts(s);
    assert HomeOk(s, h, None, u);
  }

  lemma ScanEndsOutcome(s: State)
    requires InScan(s, ScanDone)
    ensures Next(s, Goes) == Step(s.(scan := None))
  {
  }

  // ------------------------------------------------------------------ whole runs

  /** t called sleep and has not been taken off the sleep queue since: it waits for sleep_mux, holds it on its way to the
      queue, or is on it. */
  predicate InSleep(s: State, t: Tid) {
    || t in s.sleepq
    || (t in s.pc && (s.pc[t].SleepHasMux? || (s.pc[t].LockGap? && s.pc[t].toSleep) || (s.pc[t].LockWait? && s.pc[t].toSleep)))
  }

  /** The step is a scan's, at a tick not before the date of t, which is the sleeper it looks at. */
  predicate TakesOff(s: State, a: Action, t: Tid) {
    && a == Goes && Scanning(s) && s.scan.value.phase == ScanLoop && s.scan.value.rest != []
    && s.scan.value.rest[0] == t && t in s.expiry && s.expiry[t] <= s.scan.value.now
  }

  /** What sleep depends on is the same for t. */
  ghost predicate SameFor(s: State, s': State, t: Tid) {
    && (t in s.sleepq ==> t in s'.sleepq)
    && (t in s.pc ==> t in s'.pc && s'.pc[t] == s.pc[t])
    && (t in s.expiry ==> t in s'.expiry && s'.expiry[t] == s.expiry[t])
    && s'.ticks == s.ticks
  }

  ghost predicate SameForAll(s: State, s': State) {
    s'.sleepq == s.sleepq && s'.pc == s.pc && s'.expiry == s.expiry && s'.ticks == s.ticks
  }

  lemma SafeUnlockSame(s: State, m: Mid)
    requires SafeUnlock(s, m).Step?
    ensures SameForAll(s, SafeUnlock(s, m).s)
  {
  }

  lemma CallbackSame(s: State, cb: Callback)
    requires RunCallback(s, cb).Step? && !cb.StoreAsleep?
    ensures SameForAll(s, RunCallback(s, cb).s)
  {
  }

  lemma PickSame(s: State, target: Option<Tid>)
    requires PickNext(s, target).Step?
    ensures SameForAll(s, PickNext(s, target).s)
  {
  }

  lemma YieldSame(s: State, store: Status, target: Option<Tid>, cb: Callback)
    requires target.Some? ==> target.value in s.status
    requires YieldExecution(s, store, target, cb).Step? && !cb.StoreAsleep?
    ensures SameForAll(s, YieldExecution(s, store, target, cb).s)
  {
    var r, o := YieldExecution(s, store, target, cb).s, StoreRunning(s, store, cb);
    if r != s {
      if !store.Runnable? {
        CallbackSame(WithStatus(s, s.running, store), cb);
      }
      PickSame(o.s, target);
    }
  }

  lemma CallSame(s: State, call: Call, t: Tid)
    requires DoCall(s, call).Step? && t != s.running && t in s.status
    ensures SameFor(s, DoCall(s, call).s, t)
  {
    match call
    case Yield(target) =>
      if target.None? || target.value in s.status {
        YieldSame(s, Runnable, target, NoCallback);
      }
    case Deschedule => YieldSame(s, Descheduled, None, NoCallback);
    case Wait(m) => YieldSame(s, Blocked, None, StoreParked(m));
    case Vanish(cb) => YieldSame(s, Dead, None, cb);
    case _ =>
  }

  /** The running thread on its way through sleep, or somebody else beside any thread but a sleeper. */
  lemma GoSame(s: State, t: Tid)
    requires s.running in s.pc && GoStep(s, s.pc[s.running]).Step? && s.running !in s.sleepq && InSleep(s, t)
    ensures var s' := GoStep(s, s.pc[s.running]).s;
            InSleep(s', t) && s'.ticks == s.ticks && (t in s.expiry ==> t in s'.expiry && s'.expiry[t] == s.expiry[t])
  {
    var r := s.running;
    match s.pc[r]
    case LockGap(m, toSleep) =>
      YieldSame(WithPc(s, r, LockWait(m, toSleep)), Blocked, None, StoreInMutex(m));
    case SleepHasMux => AsleepSame(s);
    case _ =>
  }

  lemma AsleepSame(s: State)
    requires s.running in s.pc && s.pc[s.running] == SleepHasMux && GoStep(s, SleepHasMux).Step?
    ensures var s' := GoStep(s, SleepHasMux).s;
            && s'.sleepq == s.sleepq + [s.running] && s'.expiry == s.expiry && s'.pc == s.pc[s.running := Idle]
            && s'.ticks == s.ticks
  {
    var s1 := WithStatus(WithPc(s, s.running, Idle), s.running, Blocked);
    SafeUnlockSame(StoredAsleep(s1), s.sleepMux);
    PickSame(SafeUnlock(StoredAsleep(s1), s.sleepMux).s, None);
  }

  lemma ScanSame(s: State, c: Scan, t: Tid)
    requires s.scan == Some(c) && ScanStep(s, c).Step? && !(Scanning(s) && TakesOff(s, Goes, t)) && Scanning(s)
    ensures SameFor(s, ScanStep(s, c).s, t)
  {
    match c.phase
    case ScanGap => YieldSame(WithScan(s, c.(phase := ScanWait)), Blocked, None, StoreInMutex(s.sleepMux));
    case ScanLoop => LoopSame(s, c, t);
    case ScanWake(u) => WakeSame(WithScan(s, c.(phase := ScanLoop)), u);
    case ScanHand(u) => WakeSame(WithScan(s, c.(phase := ScanDone)), u);
    case ScanWait => ResumeSame(s, c);
    case ScanDone =>
  }

  lemma WakeSame(s: State, u: Tid)
    requires MakeThreadRunnable(s, u, false).Step?
    ensures SameForAll(s, MakeThreadRunnable(s, u, false).s)
  {
  }

  lemma ResumeSame(s: State, c: Scan)
    requires ScanResume(s, c).Step?
    ensures SameForAll(s, ScanResume(s, c).s)
  {
  }

  lemma LoopSame(s: State, c: Scan, t: Tid)
    requires s.scan == Some(c) && ScanStep(s, c).Step? && !TakesOff(s, Goes, t) && Scanning(s) && c.phase == ScanLoop
    ensures SameFor(s, ScanStep(s, c).s, t)
  {
  }

  lemma TickSame(s: State)
    requires Tick(s).Step?
    ensures SameForAll(s.(ticks := s.ticks + 1), Tick(s).s)
  {
  }

  /** A step that does not take t off the sleep queue leaves it in sleep, with its date. */
  lemma StaysInSleep(s: State, a: Action, t: Tid)
    requires Inv(s) && InSleep(s, t) && Next(s, a).Step? && !TakesOff(s, a, t)
    ensures InSleep(Next(s, a).s, t)
    ensures t in s.expiry && t in Next(s, a).s.expiry && Next(s, a).s.expiry[t] == s.expiry[t]
    ensures s.ticks <= Next(s, a).s.ticks
  {
    var h := Facts(s);
    assert ListsOk(s, h, t);
    match a
    case Ticks => TickSame(s);
    case Preempts =>
    case Goes =>
      if Scanning(s) {
        ScanSame(s, s.scan.value, t);
      } else {
        GoSame(s, t);
      }
    case Calls(call) => CallSame(s, call, t);
  }

  /** Some step of the run is taken by a scan, at a tick of at least `date`, that takes t off the sleep queue. */
  predicate TakenOff(s: State, acts: seq<Action>, t: Tid, date: nat)
    decreases |acts|
  {
    acts != []
    && ((TakesOff(s, acts[0], t) && date <= s.scan.value.now && s.scan.value.now <= s.ticks)
        || match Next(s, acts[0])
           case Step(s') => TakenOff(s', acts[1..], t, date)
           case Disabled => TakenOff(s, acts[1..], t, date)
           case Panic(_) => false)
  }

  lemma ScanInPast(s: State)
    requires Inv(s) && s.scan.Some?
    ensures s.scan.value.now <= s.ticks
  {
    var h := Facts(s);
  }

  lemma {:induction false} SleepsOn(s: State, acts: seq<Action>, t: Tid)
    requires Inv(s) && NoSelfYield(s, acts) && InSleep(s, t) && t in s.expiry && Run(s, acts).Step?
    ensures TakenOff(s, acts, t, s.expiry[t]) || (InSleep(Run(s, acts).s, t) && s.ticks <= Run(s, acts).s.ticks)
    decreases |acts|
  {
    if acts != [] {
      match Next(s, acts[0])
      case Step(s') =>
        if TakesOff(s, acts[0], t) {
          ScanInPast(s);
        } else {
          StaysInSleep(s, acts[0], t);
          StepGood(s, acts[0]);
          SleepsOn(s', acts[1..], t);
        }
      case Disabled => SleepsOn(s, acts[1..], t);
    }
  }

  lemma GoesToSleep(s: State, k: int)
    requires CanCall(s) && k > 0 && s.ticks + k <= UINT_MAX && Next(s, Calls(Sleep(k))).Step?
    ensures var s1 := Next(s, Calls(Sleep(k))).s;
            Inv(s1) && InSleep(s1, s.running) && s.running in s1.expiry && s1.expiry[s.running] == s.ticks + k
  {
    SleepOutcome(s, k);
    StepKeepsIff(s, Calls(Sleep(k)));
  }

  /** Nobody wakes early: over every run that follows a sleep of k ticks called at tick T, the caller has not come back
      from sleep, or a scan at a tick of at least T + k took it off the sleep queue. */
  lemma NeverWakesEarly(s: State, k: int, acts: seq<Action>)
    requires CanCall(s) && k > 0 && s.ticks + k <= UINT_MAX && Next(s, Calls(Sleep(k))).Step?
    requires var s1 := Next(s, Calls(Sleep(k))).s; NoSelfYield(s1, acts) && Run(s1, acts).Step?
    ensures var s1 := Next(s, Calls(Sleep(k))).s;
            TakenOff(s1, acts, s.running, s.ticks + k) || InSleep(Run(s1, acts).s, s.running)
  {
    GoesToSleep(s, k);
    SleepsOn(Next(s, Calls(Sleep(k))).s, acts, s.running);
  }
}
