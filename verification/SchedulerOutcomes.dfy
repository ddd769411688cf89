/** What every call of the scheduler, the kernel mutex and sleep comes to, in terms of who runs, the queues, statuses and
    owners.

    No outcome is stated through a step function other than `Next`: each says, for every state that meets the invariant,
    which thread has the processor afterwards and where everybody else is. */
module SchedulerOutcomes {
  import opened Seqs
  import opened Scheduler
  import opened SchedulerInvariant
  import opened SchedulerSteps
  import opened SchedulerTheorems

  /** The running thread is not inside mutex_lock, mutex_unlock, sleep or a tick. */
  ghost predicate CanCall(s: State) {
    Inv(s) && s.running in s.pc && s.pc[s.running] == Idle && !Scanning(s)
  }

  /** The running thread is inside one of them. */
  ghost predicate IsAt(s: State, pc: Pc) {
    Inv(s) && s.running in s.pc && s.pc[s.running] == pc && !Scanning(s)
  }

  ghost predicate InScan(s: State, phase: Phase) {
    Inv(s) && Scanning(s) && s.scan.value.phase == phase
  }

  ghost predicate SameSleep(s: State, s': State) {
    && s'.expiry == s.expiry && s'.sleepq == s.sleepq && s'.ticks == s.ticks && s'.earliest == s.earliest
    && s'.scan == s.scan && s'.sleepMux == s.sleepMux
  }

  /** Only the processor, the runnable queue and statuses may differ. */
  ghost predicate SameRest(s: State, s': State) {
    SameSleep(s, s') && s'.pc == s.pc && s'.mutexes == s.mutexes && s'.parked == s.parked
  }

  /** `next` runs, the thread that ran has status `fate`, those of `woken` can run, everyone else is as before. */
  ghost predicate Switched(s: State, s': State, next: Tid, fate: Status, woken: set<Tid>) {
    && s'.running == next && next in s.status && s'.status.Keys == s.status.Keys
    && (forall t :: t in s.status ==>
          s'.status[t] == if t == s.running then fate else if t == next then Running
                          else if t in woken then Runnable else s.status[t])
  }

  /** The running thread gives up the processor to the front of `queue`. */
  ghost predicate GivesWay(s: State, s': State, fate: Status, queue: seq<Tid>, woken: set<Tid>) {
    && queue != [] && Switched(s, s', queue[0], fate, woken) && s'.runq == queue[1..] && s'.picks == s.picks + 1
  }

  /** The running thread lets u run at once and queues behind everybody. */
  ghost predicate LetsRun(s: State, s': State, u: Tid) {
    && u != s.running && Switched(s, s', u, Runnable, {}) && s'.runq == s.runq + [s.running] && s'.picks == s.picks
  }

  lemma Facts(s: State) returns (h: Homes)
    requires Inv(s)
    ensures InvAt(s, h) && s.running in s.status && s.running in s.pc && HomeOk(s, h, None, s.running)
    ensures s.running !in s.runq && s.running !in s.sleepq && s.running !in s.parked
    ensures forall m :: m in s.mutexes ==> s.running !in s.mutexes[m].waiters
    ensures s.runq != [] ==> s.runq[0] in s.status && s.status[s.runq[0]] == Runnable
  {
    h :| InvAt(s, h);
    RunnerFree(s, h);
    if s.runq != [] {
      assert ListsOk(s, h, s.runq[0]);
      assert HomeOk(s, h, None, s.runq[0]);
    }
  }

  // ------------------------------------------------------------------ the swap at the end of a yield

  ghost function SetOf(xs: seq<Tid>): set<Tid> {
    set t | t in xs
  }

  /** s with the running thread in status `fate` and `woken` behind the runnable queue. */
  ghost predicate Ready(s: State, s1: State, fate: Status, woken: seq<Tid>) {
    && s1.running == s.running && s1.runq == s.runq + woken && s1.picks == s.picks && s1.status.Keys == s.status.Keys
    && s.running in s.status
    && (forall t :: t in s.status ==>
          s1.status[t] == if t == s.running then fate else if t in woken then Runnable else s.status[t])
  }

  lemma DispatchIs(s: State, s1: State, fate: Status, woken: seq<Tid>)
    requires Ready(s, s1, fate, woken) && s.running !in s.runq && s.running !in woken
    requires s.runq != [] ==> s.runq[0] in s.status && s.status[s.runq[0]] == Runnable
    requires forall t :: t in woken ==> t in s.status
    ensures s.runq + woken == [] <==> Dispatch(s1) == Panic(Deadlock)
    ensures s.runq + woken != [] ==>
              && Dispatch(s1).Step?
              && GivesWay(s, Dispatch(s1).s, fate, s.runq + woken, SetOf(woken)) && SameRest(s1, Dispatch(s1).s)
  {
    if s.runq != [] {
      assert (s.runq + woken)[0] == s.runq[0];
    } else if woken != [] {
      assert (s.runq + woken)[0] == woken[0];
    }
  }

  // ------------------------------------------------------------------ make_runnable, deschedule, yield

  /** make_runnable of a descheduled thread puts it on the processor at once, and its caller at the end of the runnable
      queue; of any other thread it does nothing. */
  lemma MakeRunnableOutcome(s: State, u: Tid)
    requires CanCall(s)
    ensures Next(s, Calls(MakeRunnable(u))).Step?
    ensures var s' := Next(s, Calls(MakeRunnable(u))).s;
            if u in s.status && s.status[u].Descheduled? then LetsRun(s, s', u) && SameRest(s, s') else s' == s
  {
    var h := Facts(s);
  }

  /** deschedule stops the caller until make_runnable, and the next thread of the queue runs. */
  lemma DescheduleOutcome(s: State)
    requires CanCall(s)
    ensures s.runq == [] ==> Next(s, Calls(Deschedule)) == Panic(Deadlock)
    ensures s.runq != [] ==>
              && Next(s, Calls(Deschedule)).Step?
              && var s' := Next(s, Calls(Deschedule)).s; GivesWay(s, s', Descheduled, s.runq, {}) && SameRest(s, s')
  {
    var h := Facts(s);
  }

  /** A thread that descheduled itself runs again when another thread asks for it. */
  lemma DescheduledRunsAgain(s: State)
    requires CanCall(s) && s.runq != [] && s.runq[0] in s.pc && s.pc[s.runq[0]] == Idle && s.scan == None
    ensures var o := Run(s, [Calls(Deschedule), Calls(MakeRunnable(s.running))]);
            && o.Step? && o.s.running == s.running && s.running in o.s.status && o.s.status[s.running] == Running
            && o.s.runq == s.runq[1..] + [s.runq[0]]
  {
    var h := Facts(s);
    DescheduleOutcome(s);
    var s1 := Next(s, Calls(Deschedule)).s;
    StepKeepsIff(s, Calls(Deschedule));
    MakeRunnableOutcome(s1, s.running);
    var s2 := Next(s1, Calls(MakeRunnable(s.running))).s;
    var acts := [Calls(Deschedule), Calls(MakeRunnable(s.running))];
    assert acts[1..] == [Calls(MakeRunnable(s.running))];
    assert acts[1..][1..] == [] && Run(s2, []) == Step(s2);
  }

  lemma RoundIs(s: State)
    requires s.running in s.status && s.running !in s.runq
    requires s.runq != [] ==> s.runq[0] in s.status && s.status[s.runq[0]] == Runnable
    ensures Preempt(s).Step?
    ensures GivesWay(s, Preempt(s).s, Runnable, s.runq + [s.running], {}) && SameRest(s, Preempt(s).s)
  {
    assert s.runq != [] ==> (s.runq + [s.running])[0] == s.runq[0];
  }

  lemma YieldIsRound(s: State)
    requires s.running in s.pc && s.pc[s.running] == Idle && !Scanning(s)
    ensures Next(s, Calls(Yield(None))) == Preempt(s)
  {
    assert AddToRun(WithStatus(s, s.running, Runnable), s.running) == AddToRun(s, s.running);
  }

  /** yield to anybody: the caller queues behind everybody and the first of the queue runs, the caller itself when it is
      alone. */
  lemma YieldOutcome(s: State)
    requires CanCall(s)
    ensures Next(s, Calls(Yield(None))).Step?
    ensures var s' := Next(s, Calls(Yield(None))).s;
            GivesWay(s, s', Runnable, s.runq + [s.running], {}) && SameRest(s, s')
  {
    var h := Facts(s);
    RoundIs(s);
    YieldIsRound(s);
  }

  /** yield to a thread: one that can run does run, ahead of the others, who keep their order. */
  lemma YieldToOutcome(s: State, u: Tid)
    requires CanCall(s) && u != s.running
    ensures Next(s, Calls(Yield(Some(u)))).Step?
    ensures var s' := Next(s, Calls(Yield(Some(u)))).s;
            if u in s.status && s.status[u].Runnable? then
              && u in s.runq && Switched(s, s', u, Runnable, {}) && s'.runq == Without(s.runq, u) + [s.running]
              && s'.picks == s.picks && SameRest(s, s')
            else s' == s
  {
    var h := Facts(s);
    if u in s.status {
      assert HomeOk(s, h, None, u);
      if s.status[u].Runnable? {
        ChosenRuns(s, u);
      }
    }
  }

  lemma ChosenRuns(s: State, u: Tid)
    requires s.running in s.pc && s.pc[s.running] == Idle && !Scanning(s) && s.running in s.status && s.running !in s.runq
    requires u in s.runq && u in s.status && s.status[u] == Runnable
    ensures Next(s, Calls(Yield(Some(u)))).Step?
    ensures var s' := Next(s, Calls(Yield(Some(u)))).s;
            && Switched(s, s', u, Runnable, {}) && s'.runq == Without(s.runq, u) + [s.running] && s'.picks == s.picks
            && SameRest(s, s')
  {
    WithoutAppended(s.runq, u, s.running);
  }

  lemma {:induction false} WithoutAppended(xs: seq<Tid>, u: Tid, t: Tid)
    requires u in xs
    ensures Without(xs + [t], u) == Without(xs, u) + [t]
  {
    if xs[0] == u {
      assert (xs + [t])[1..] == xs[1..] + [t];
    } else {
      assert (xs + [t])[1..] == xs[1..] + [t] && (xs + [t])[0] == xs[0];
      WithoutAppended(xs[1..], u, t);
    }
  }

  /** yield to oneself changes no queue while somebody else can run; alone, it leaves the runner on the queue. */
  lemma YieldToSelfOutcome(s: State)
    requires CanCall(s)
    ensures Next(s, Calls(Yield(Some(s.running)))).Step?
    ensures var s' := Next(s, Calls(Yield(Some(s.running)))).s;
            && Switched(s, s', s.running, Runnable, {}) && SameRest(s, s') && s'.picks == s.picks
            && s'.runq == if s.runq == [] then [s.running] else s.runq
  {
    var h := Facts(s);
    if s.runq != [] {
      WithoutLast(s.runq, s.running);
    }
  }

  lemma {:induction false} WithoutLast(xs: seq<Tid>, t: Tid)
    requires t !in xs
    ensures Without(xs + [t], t) == xs
  {
    if xs == [] {
      assert xs + [t] == [t];
    } else {
      assert (xs + [t])[1..] == xs[1..] + [t] && (xs + [t])[0] == xs[0];
      WithoutLast(xs[1..], t);
    }
  }

  /** The scheduler's tick: the running thread queues behind everybody and the first of the queue runs. */
  lemma PreemptOutcome(s: State)
    requires Inv(s)
    ensures Next(s, Preempts).Step?
    ensures var s' := Next(s, Preempts).s; GivesWay(s, s', Runnable, s.runq + [s.running], {}) && SameRest(s, s')
  {
    var h := Facts(s);
    RoundIs(s);
  }

  // ------------------------------------------------------------------ new threads

  lemma CreateOutcome(s: State, u: Tid)
    requires CanCall(s)
    ensures Next(s, Calls(Create(u))).Step? <==> u !in s.status
    ensures u !in s.status ==>
              var s' := Next(s, Calls(Create(u))).s;
              && s'.status == s.status[u := Uninitialized] && s'.pc == s.pc[u := Idle]
              && s'.running == s.running && s'.runq == s.runq && s'.mutexes == s.mutexes && s'.sleepq == s.sleepq
              && s'.scan == s.scan && s'.parked == s.parked
              && forall t :: t in s.expiry ==> t in s'.expiry && s'.expiry[t] == s.expiry[t]
  {
    var h := Facts(s);
  }

  /** A new thread goes to the end of the runnable queue; its creator goes on. */
  lemma StartOutcome(s: State, u: Tid)
    requires CanCall(s)
    ensures Next(s, Calls(Start(u))).Step? <==> u in s.status && s.status[u].Uninitialized?
    ensures u in s.status && s.status[u].Uninitialized? ==>
              var s' := Next(s, Calls(Start(u))).s;
              && s'.status == s.status[u := Runnable] && s'.runq == s.runq + [u] && s'.running == s.running
              && s'.picks == s.picks && SameRest(s, s')
  {
    var h := Facts(s);
  }

  // ------------------------------------------------------------------ the mutex

  /** Mutexes other than m are as before. */
  ghost predicate OnlyMutex(s: State, s': State, m: Mid) {
    m in s.mutexes && s'.mutexes.Keys == s.mutexes.Keys && forall k :: k in s.mutexes && k != m ==> s'.mutexes[k] == s.mutexes[k]
  }

  /** Nothing of the scheduler's differs. */
  ghost predicate SameThreads(s: State, s': State) {
    && s'.running == s.running && s'.runq == s.runq && s'.status == s.status && s'.picks == s.picks
    && s'.parked == s.parked
  }

  /** x belongs to t alone. */
  ghost predicate HeldBy(x: Mutex, t: Tid) {
    x.owned && x.owner == t && x.inside == {t}
  }

  /** x after its owner let go of it: free, or handed to the thread that waited longest. */
  ghost predicate LetGo(x: Mutex, x': Mutex) {
    && x'.inside == {}
    && if x.waiters == [] then !x'.owned && x'.waiters == [] else
         x'.owned && x'.owner == x.waiters[0] && x'.waiters == x.waiters[1..]
  }

  /** mutex_lock takes a free mutex at once and finds an owned one owned; an owner must not lock again. */
  lemma LockOutcome(s: State, m: Mid)
    requires CanCall(s)
    ensures Next(s, Calls(Lock(m))).Step? <==> m in s.mutexes && !(s.mutexes[m].owned && s.mutexes[m].owner == s.running)
    ensures Next(s, Calls(Lock(m))).Step? ==>
              var s', x := Next(s, Calls(Lock(m))).s, s.mutexes[m];
              && SameThreads(s, s') && SameSleep(s, s') && OnlyMutex(s, s', m)
              && (x.owned ==> s'.mutexes[m] == x && s'.pc == s.pc[s.running := LockGap(m, false)])
              && (!x.owned ==> HeldBy(s'.mutexes[m], s.running) && s'.mutexes[m].waiters == x.waiters && s'.pc == s.pc)
  {
    var h := Facts(s);
    assert m in s.mutexes ==> MutexOk(LocksOf(s), m);
    assert s.pc[s.running := Idle] == s.pc;
  }

  /** ... and then its thread sleeps behind the other waiters. */
  lemma LockBlocksOutcome(s: State, m: Mid, toSleep: bool)
    requires IsAt(s, LockGap(m, toSleep))
    ensures s.runq == [] ==> Next(s, Goes) == Panic(Deadlock)
    ensures s.runq != [] ==>
              && Next(s, Goes).Step?
              && var s' := Next(s, Goes).s;
                 && GivesWay(s, s', Blocked, s.runq, {}) && SameSleep(s, s') && s'.parked == s.parked
                 && s'.pc == s.pc[s.running := LockWait(m, toSleep)] && OnlyMutex(s, s', m)
                 && s'.mutexes[m].waiters == s.mutexes[m].waiters + [s.running]
                 && s'.mutexes[m].owned == s.mutexes[m].owned && s'.mutexes[m].owner == s.mutexes[m].owner
                 && s'.mutexes[m].inside == s.mutexes[m].inside
  {
    var h := Facts(s);
    assert LockOk(LocksOf(s), s.running, m);
    var s1 := Enqueued(WithStatus(WithPc(s, s.running, LockWait(m, toSleep)), s.running, Blocked), m);
    BlocksIs(s, m, toSleep);
    DispatchIs(s, s1, Blocked, []);
    assert s.runq + [] == s.runq && SetOf([]) == {};
  }

  lemma BlocksIs(s: State, m: Mid, toSleep: bool)
    requires s.running in s.pc && s.pc[s.running] == LockGap(m, toSleep) && !Scanning(s) && m in s.mutexes
    ensures Next(s, Goes) == Dispatch(Enqueued(WithStatus(WithPc(s, s.running, LockWait(m, toSleep)), s.running, Blocked), m))
  {
  }

  /** ... until it runs again, as the owner. */
  lemma LockReturnsOutcome(s: State, m: Mid, toSleep: bool)
    requires IsAt(s, LockWait(m, toSleep))
    ensures Next(s, Goes).Step?
    ensures var s' := Next(s, Goes).s;
            && SameThreads(s, s') && SameSleep(s, s') && OnlyMutex(s, s', m)
            && HeldBy(s'.mutexes[m], s.running) && s'.mutexes[m].waiters == s.mutexes[m].waiters
            && s'.pc == s.pc[s.running := if toSleep then SleepHasMux else Idle]
  {
    var h := Facts(s);
    LockReturnStep(s, h, m, toSleep);
  }

  /** The running thread's own mutex, when it is not inside a call. */
  lemma OwnerInside(s: State, m: Mid)
    requires Inv(s) && Owns(s, m) && s.running in s.pc && !s.pc[s.running].LockWait? && !Scanning(s)
    ensures s.mutexes[m].inside == {s.running}
  {
    var h := Facts(s);
    assert MutexOk(LocksOf(s), m);
  }

  /** mutex_unlock frees a mutex nobody waits for, and hands it to the first waiter otherwise. */
  lemma UnlockOutcome(s: State, m: Mid)
    requires CanCall(s)
    ensures !Owns(s, m) ==> Next(s, Calls(Unlocks(m))) == Panic(NotOwner)
    ensures Owns(s, m) ==>
              && Next(s, Calls(Unlocks(m))).Step?
              && var s', x := Next(s, Calls(Unlocks(m))).s, s.mutexes[m];
                 && SameThreads(s, s') && SameSleep(s, s') && OnlyMutex(s, s', m) && LetGo(x, s'.mutexes[m])
                 && s'.pc == s.pc[s.running := if x.waiters == [] then Idle else Waking(x.waiters[0])]
  {
    var h := Facts(s);
    if Owns(s, m) {
      OwnerInside(s, m);
      assert s.pc[s.running := Idle] == s.pc;
    }
  }

  /** ... which then runs at once. */
  lemma WakingOutcome(s: State, u: Tid)
    requires IsAt(s, Waking(u))
    ensures Next(s, Goes).Step?
    ensures var s' := Next(s, Goes).s;
            && LetsRun(s, s', u) && SameSleep(s, s') && s'.mutexes == s.mutexes && s'.parked == s.parked
            && s'.pc == s.pc[s.running := Idle]
  {
    var h := Facts(s);
    assert CarryOk(s, h, s.running);
    assert HomeOk(s, h, None, u);
  }

  /** mutex_unlock makes the mutex_lock of the thread that waited longest return. */
  lemma UnlockLetsFirstIn(s: State, m: Mid)
    requires CanCall(s) && Owns(s, m) && s.mutexes[m].waiters != [] && s.scan == None
    requires s.mutexes[m].waiters[0] in s.pc && s.pc[s.mutexes[m].waiters[0]] == LockWait(m, false)
    ensures var w, o := s.mutexes[m].waiters[0], Run(s, [Calls(Unlocks(m)), Goes, Goes]);
            && o.Step? && CanCall(o.s) && o.s.running == w && m in o.s.mutexes && HeldBy(o.s.mutexes[m], w)
            && o.s.mutexes[m].waiters == s.mutexes[m].waiters[1..] && o.s.runq == s.runq + [s.running]
  {
    var h := Facts(s);
    var w := s.mutexes[m].waiters[0];
    UnlockOutcome(s, m);
    StepKeepsIff(s, Calls(Unlocks(m)));
    var s1 := Next(s, Calls(Unlocks(m))).s;
    WakingOutcome(s1, w);
    StepKeepsIff(s1, Goes);
    var s2 := Next(s1, Goes).s;
    LockReturnsOutcome(s2, m, false);
    StepKeepsIff(s2, Goes);
    var s3 := Next(s2, Goes).s;
    var acts := [Calls(Unlocks(m)), Goes, Goes];
    assert acts[1..] == [Goes, Goes] && [Goes, Goes][1..] == [Goes];
    assert [Goes][1..] == [] && Run(s3, []) == Step(s3);
  }

  // ------------------------------------------------------------------ blocking and dying with a mutex in hand

  /** The threads a release of m makes runnable. */
  ghost function FirstWaiter(s: State, m: Mid): seq<Tid>
    requires m in s.mutexes
  {
    if s.mutexes[m].waiters == [] then [] else [s.mutexes[m].waiters[0]]
  }

  /** The running thread lets go of m and of the processor, in favour of the queue with `woken` behind it. */
  ghost predicate LeavesWith(s: State, s': State, m: Mid, fate: Status, woken: seq<Tid>) {
    && GivesWay(s, s', fate, s.runq + woken, SetOf(woken)) && OnlyMutex(s, s', m)
    && LetGo(s.mutexes[m], s'.mutexes[m])
  }

  lemma WaiterIsBlocked(s: State, h: Homes, m: Mid)
    requires InvAt(s, h) && m in s.mutexes && s.mutexes[m].waiters != []
    ensures var w := s.mutexes[m].waiters[0]; w in s.status && s.status[w] == Blocked && w != s.running && w !in s.parked
  {
    var w := s.mutexes[m].waiters[0];
    assert WaitersOk(s, h, m, w) && HomeOk(s, h, None, w) && ListsOk(s, h, w);
  }

  /** What the release inside a yield's callback does. */
  lemma ReleaseIs(s: State, m: Mid)
    requires Owns(s, m) && s.mutexes[m].inside == {s.running}
    requires s.mutexes[m].waiters != [] ==>
               s.mutexes[m].waiters[0] in s.status && s.status[s.mutexes[m].waiters[0]] == Blocked
    ensures SafeUnlock(s, m).Step?
    ensures var s' := SafeUnlock(s, m).s;
            && s'.runq == s.runq + FirstWaiter(s, m) && s'.status.Keys == s.status.Keys
            && (forall t :: t in s.status ==> s'.status[t] == if t in FirstWaiter(s, m) then Runnable else s.status[t])
            && OnlyMutex(s, s', m) && LetGo(s.mutexes[m], s'.mutexes[m]) && SameSleep(s, s')
            && s'.pc == s.pc && s'.parked == s.parked && s'.running == s.running && s'.picks == s.picks
  {
  }

  /** What the yields that release m have in common: s1 is s with the thread stored. */
  ghost predicate Leaving(s: State, s1: State, m: Mid, fate: Status) {
    && Owns(s, m) && s.mutexes[m].inside == {s.running} && s.running in s.status
    && s1.status == s.status[s.running := fate] && s1.mutexes == s.mutexes && s1.runq == s.runq
    && s1.running == s.running && s1.picks == s.picks
    && (s.mutexes[m].waiters != [] ==>
          && s.mutexes[m].waiters[0] in s.status && s.status[s.mutexes[m].waiters[0]] == Blocked
          && s.mutexes[m].waiters[0] != s.running)
  }

  lemma LeavingIs(s: State, s1: State, m: Mid, fate: Status)
    requires CanCall(s) || IsAt(s, SleepHasMux)
    requires Owns(s, m) && s1.status == s.status[s.running := fate] && s1.mutexes == s.mutexes && s1.runq == s.runq
    requires s1.running == s.running && s1.picks == s.picks
    ensures Leaving(s, s1, m, fate)
  {
    var h := Facts(s);
    OwnerInside(s, m);
    if s.mutexes[m].waiters != [] {
      WaiterIsBlocked(s, h, m);
    }
  }

  lemma ReleasedIsReady(s: State, s1: State, m: Mid, fate: Status)
    requires Leaving(s, s1, m, fate)
    ensures SafeUnlock(s1, m).Step?
    ensures var s2 := SafeUnlock(s1, m).s;
            && Ready(s, s2, fate, FirstWaiter(s, m)) && OnlyMutex(s, s2, m) && LetGo(s.mutexes[m], s2.mutexes[m])
            && SameSleep(s1, s2) && s2.pc == s1.pc && s2.parked == s1.parked
  {
    ReleaseIs(s1, m);
  }

  /** A yield whose callback releases m after storing the thread. */
  lemma LeavesIs(s: State, s1: State, m: Mid, fate: Status)
    requires Leaving(s, s1, m, fate) && s.running !in s.runq
    requires s.runq != [] ==> s.runq[0] in s.status && s.status[s.runq[0]] == Runnable
    ensures SafeUnlock(s1, m).Step?
    ensures s.runq == [] && s.mutexes[m].waiters == [] ==> Dispatch(SafeUnlock(s1, m).s) == Panic(Deadlock)
    ensures s.runq != [] || s.mutexes[m].waiters != [] ==>
              && Dispatch(SafeUnlock(s1, m).s).Step?
              && var s' := Dispatch(SafeUnlock(s1, m).s).s;
                 && LeavesWith(s, s', m, fate, FirstWaiter(s, m)) && SameSleep(s1, s') && s'.pc == s1.pc
                 && s'.parked == s1.parked
  {
    ReleasedIsReady(s, s1, m, fate);
    DispatchIs(s, SafeUnlock(s1, m).s, fate, FirstWaiter(s, m));
  }

  lemma YieldIs(s: State, fate: Status, cb: Callback, s1: State, m: Mid)
    requires s.running in s.pc && (fate == Blocked || fate == Dead) && SafeUnlock(s1, m).Step?
    requires RunCallback(WithStatus(s, s.running, fate), cb) == SafeUnlock(s1, m)
    ensures YieldExecution(s, fate, None, cb) == Dispatch(SafeUnlock(s1, m).s)
  {
  }

  /** The yield in wait: the thread is parked with the mutex of its task released, whose first waiter can run. */
  lemma WaitOutcome(s: State, m: Mid)
    requires CanCall(s) && Owns(s, m)
    ensures s.runq == [] && s.mutexes[m].waiters == [] ==> Next(s, Calls(Call.Wait(m))) == Panic(Deadlock)
    ensures s.runq != [] || s.mutexes[m].waiters != [] ==>
              && Next(s, Calls(Call.Wait(m))).Step?
              && var s' := Next(s, Calls(Call.Wait(m))).s;
                 && LeavesWith(s, s', m, Blocked, FirstWaiter(s, m)) && SameSleep(s, s') && s'.pc == s.pc
                 && s'.parked == s.parked + {s.running}
  {
    var h := Facts(s);
    var s1 := WithStatus(s, s.running, Blocked).(parked := s.parked + {s.running});
    LeavingIs(s, s1, m, Blocked);
    LeavesIs(s, s1, m, Blocked);
    YieldIs(s, Blocked, StoreParked(m), s1, m);
  }

  /** Letting go of a mutex one does not own stops the kernel. */
  lemma OnlyOwnersLetGo(s: State, m: Mid)
    requires CanCall(s) && !Owns(s, m)
    ensures Next(s, Calls(Call.Wait(m))) == Panic(NotOwner) && Next(s, Calls(Vanish(UnlockMux(m)))) == Panic(NotOwner)
  {
  }

  /** _vanish without a mutex: the thread never runs again. */
  lemma VanishOutcome(s: State)
    requires CanCall(s)
    ensures s.runq == [] ==> Next(s, Calls(Vanish(NoCallback))) == Panic(Deadlock)
    ensures s.runq != [] ==>
              && Next(s, Calls(Vanish(NoCallback))).Step?
              && var s' := Next(s, Calls(Vanish(NoCallback))).s; GivesWay(s, s', Dead, s.runq, {}) && SameRest(s, s')
  {
    var h := Facts(s);
  }

  /** _vanish with the parent's mutex: it is released as the thread dies. */
  lemma VanishUnlocksOutcome(s: State, m: Mid)
    requires CanCall(s) && Owns(s, m)
    ensures s.runq == [] && s.mutexes[m].waiters == [] ==> Next(s, Calls(Vanish(UnlockMux(m)))) == Panic(Deadlock)
    ensures s.runq != [] || s.mutexes[m].waiters != [] ==>
              && Next(s, Calls(Vanish(UnlockMux(m)))).Step?
              && var s' := Next(s, Calls(Vanish(UnlockMux(m)))).s;
                 && LeavesWith(s, s', m, Dead, FirstWaiter(s, m)) && SameSleep(s, s') && s'.pc == s.pc
                 && s'.parked == s.parked
  {
    var h := Facts(s);
    LeavingIs(s, WithStatus(s, s.running, Dead), m, Dead);
    LeavesIs(s, WithStatus(s, s.running, Dead), m, Dead);
    YieldIs(s, Dead, UnlockMux(m), WithStatus(s, s.running, Dead), m);
  }

  /** A parked thread is in no queue of the scheduler's link. */
  lemma ParkedIs(s: State, h: Homes, u: Tid)
    requires InvAt(s, h) && u in s.parked
    ensures u in s.status && s.status[u] == Blocked && u != s.running && !InSomeQueue(s, u)
    ensures forall m :: m in s.mutexes ==> u !in s.mutexes[m].waiters
  {
    assert ListsOk(s, h, u) && HomeOk(s, h, None, u);
    forall m | m in s.mutexes
      ensures u !in s.mutexes[m].waiters
    {
      assert WaitersOk(s, h, m, u);
    }
  }

  /** _vanish with a waiting thread u of the parent: u can run again, behind the first waiter of the mutex. */
  lemma VanishWakesOutcome(s: State, m: Mid, u: Tid)
    requires CanCall(s) && Owns(s, m) && u in s.parked
    ensures Next(s, Calls(Vanish(AssignChild(m, u)))).Step?
    ensures var s' := Next(s, Calls(Vanish(AssignChild(m, u)))).s;
            && LeavesWith(s, s', m, Dead, FirstWaiter(s, m) + [u]) && SameSleep(s, s') && s'.pc == s.pc
            && s'.parked == s.parked - {u}
  {
    var h := Facts(s);
    ParkedIs(s, h, u);
    var s1 := WithStatus(s, s.running, Dead).(parked := s.parked - {u});
    LeavingIs(s, s1, m, Dead);
    WakesIs(s, s1, m, u);
    AssignIs(s, m, u);
  }

  lemma WakesIs(s: State, s1: State, m: Mid, u: Tid)
    requires Leaving(s, s1, m, Dead) && s.running !in s.runq && u in s.status && s.status[u] == Blocked && u != s.running
    requires u !in s.mutexes[m].waiters
    requires s.runq != [] ==> s.runq[0] in s.status && s.status[s.runq[0]] == Runnable
    ensures SafeUnlock(s1, m).Step? && u in SafeUnlock(s1, m).s.status && SafeUnlock(s1, m).s.status[u] == Blocked
    ensures Dispatch(AddToRun(SafeUnlock(s1, m).s, u)).Step?
    ensures var s' := Dispatch(AddToRun(SafeUnlock(s1, m).s, u)).s;
            && LeavesWith(s, s', m, Dead, FirstWaiter(s, m) + [u]) && SameSleep(s1, s') && s'.pc == s1.pc
            && s'.parked == s1.parked
  {
    ReleasedIsReady(s, s1, m, Dead);
    var s2 := SafeUnlock(s1, m).s;
    ReadyWithOneMore(s, s2, Dead, FirstWaiter(s, m), u);
    DispatchIs(s, AddToRun(s2, u), Dead, FirstWaiter(s, m) + [u]);
  }

  lemma ReadyWithOneMore(s: State, s1: State, fate: Status, woken: seq<Tid>, u: Tid)
    requires Ready(s, s1, fate, woken) && u in s.status && u != s.running
    ensures Ready(s, AddToRun(s1, u), fate, woken + [u])
  {
  }

  /** The callback wakes u once the mutex is released. */
  lemma AssignIs(s: State, m: Mid, u: Tid)
    requires s.running in s.pc && s.pc[s.running] == Idle && !Scanning(s)
    requires u in s.parked && u in s.status && s.status[u] == Blocked && u != s.running && !InSomeQueue(s, u)
    requires var s1 := WithStatus(s, s.running, Dead).(parked := s.parked - {u});
             && SafeUnlock(s1, m).Step? && u in SafeUnlock(s1, m).s.status && SafeUnlock(s1, m).s.status[u] == Blocked
    ensures var s1 := WithStatus(s, s.running, Dead).(parked := s.parked - {u});
            Next(s, Calls(Vanish(AssignChild(m, u)))) == Dispatch(AddToRun(SafeUnlock(s1, m).s, u))
  {
    assert !InSomeQueue(WithStatus(s, s.running, Dead), u);
  }
}
