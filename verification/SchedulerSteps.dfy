/** Every step of the machine keeps its invariant: base steps of the running thread. */
module SchedulerSteps {
  import opened Seqs
  import opened Scheduler
  import opened SchedulerInvariant
  import opened SchedulerQueues
  import opened SchedulerMoves
  import opened SchedulerLocks
  import Sleep = SchedulerSleep

  /** No affirm of the scheduler fails, and the invariant holds afterwards. */
  ghost predicate Good(o: Outcome) {
    o != Panic(Broken) && (o.Step? ==> Inv(o.s))
  }

  ghost predicate RestOk(s: State) {
    LocksOk(LocksOf(s)) && IndexOk(SleepersOf(s))
  }

  lemma CloseDispatch(s: State, h: Homes)
    requires Stored(s, h) && RestOk(s)
    ensures Good(Dispatch(s))
  {
    if s.runq != [] {
      var h' := DispatchKeeps(s, h);
      var s' := Dispatch(s).s;
      assert LocksOf(s') == LocksOf(s) && SleepersOf(s') == SleepersOf(s);
      assert InvAt(s', h');
    }
  }

  lemma CloseDispatchTo(s: State, h: Homes, u: Tid)
    requires Stored(s, h) && RestOk(s) && u in s.status && u in s.runq && |s.runq| >= 2
    ensures Good(DispatchTo(s, u))
  {
    var h' := DispatchToKeeps(s, h, u);
    var s' := DispatchTo(s, u).s;
    assert LocksOf(s') == LocksOf(s) && SleepersOf(s') == SleepersOf(s);
    assert InvAt(s', h');
  }

  lemma CloseWake(s: State, h: Homes, u: Tid)
    requires QueuesOk(s, h, Some(u)) && h[s.running] == Runs && u in h && h[u] == Off && u != s.running
    requires s.status[u] == Blocked || s.status[u] == Descheduled
    requires RestOk(s)
    ensures Good(MakeThreadRunnable(s, u, false))
  {
    WakeKeeps(s, h, u);
    var s' := MakeThreadRunnable(s, u, false).s;
    assert LocksOf(s') == LocksOf(s) && SleepersOf(s') == SleepersOf(s);
    assert InvAt(s', h[s.running := Queued][u := Runs]);
  }

  lemma CloseSame(s: State, s': State, h: Homes)
    requires OneQueue(s, h) && SameQueues(s, s') && RestOk(s')
    ensures Inv(s')
  {
    SameKeeps(s, s', h, None);
    assert InvAt(s', h);
  }

  /** The running thread is on no mutex queue. */
  lemma RunnerFree(s: State, h: Homes)
    requires OneQueue(s, h)
    ensures s.running !in s.runq && s.running !in s.sleepq && s.running !in s.parked
    ensures forall m :: m in s.mutexes ==> s.running !in s.mutexes[m].waiters
    ensures forall m :: m in s.mutexes ==> NoDup(s.mutexes[m].waiters)
  {
    assert ListsOk(s, h, s.running);
    forall m | m in s.mutexes
      ensures s.running !in s.mutexes[m].waiters && NoDup(s.mutexes[m].waiters)
    {
      assert WaitersOk(s, h, m, s.running) && NoDupAt(s, m);
    }
  }

  // ------------------------------------------------------------------ yield, deschedule, make_runnable

  lemma YieldStep(s: State, h: Homes, target: Option<Tid>)
    requires InvAt(s, h) && !(target == Some(s.running) && s.runq == [])
    ensures Good(DoCall(s, Yield(target)))
  {
    if target.None? || target.value in s.status {
      AddSelf(s, h, None);
      var s1 := AddToRun(s, s.running);
      assert AddToRun(WithStatus(s, s.running, Runnable), s.running) == s1;
      if target == None {
        CloseDispatch(s1, h[s.running := Queued]);
      } else {
        var u := target.value;
        assert HomeOk(s, h, None, u);
        if s.status[u].Runnable? || s.status[u].Running? {
          assert u == s.running || u in s.runq;
          CloseDispatchTo(s1, h[s.running := Queued], u);
        }
      }
    }
  }

  /** yield to oneself with nobody else runnable: the thread runs on and sits in the runnable queue. */
  lemma SelfYieldBreaks(s: State)
    requires Inv(s) && s.runq == []
    ensures DoCall(s, Yield(Some(s.running))).Step?
    ensures var s' := DoCall(s, Yield(Some(s.running))).s; s'.running == s.running && s'.running in s'.runq && !Inv(s')
  {
    var h :| InvAt(s, h);
    RunnerFree(s, h);
    assert HomeOk(s, h, None, s.running);
    var s1 := AddToRun(WithStatus(s, s.running, Runnable), s.running);
    assert s1.runq == [s.running] && s1.running == s.running;
    assert !InSomeQueue(s1, s.running);
    var s' := DoCall(s, Yield(Some(s.running))).s;
    assert s' == s1;
    forall h': Homes
      ensures !InvAt(s', h')
    {
      assert InvAt(s', h') ==> ListsOk(s', h', s.running);
    }
  }

  lemma DescheduleStep(s: State, h: Homes)
    requires InvAt(s, h)
    ensures Good(DoCall(s, Deschedule))
  {
    OffMoves(s, h, Descheduled);
    CloseDispatch(WithStatus(s, s.running, Descheduled), h[s.running := Off]);
  }

  lemma OffIsHole(s: State, h: Homes, u: Tid)
    requires OneQueue(s, h) && u in h && h[u] == Off
    ensures QueuesOk(s, h, Some(u))
  {
    forall t | t in s.status
      ensures HomeOk(s, h, Some(u), t)
    {
      assert HomeOk(s, h, None, t);
    }
  }

  lemma MakeRunnableStep(s: State, h: Homes, u: Tid)
    requires InvAt(s, h)
    ensures Good(DoCall(s, MakeRunnable(u)))
  {
    if u in s.status && s.status[u].Descheduled? {
      assert HomeOk(s, h, None, u) && HomeOk(s, h, None, s.running);
      OffIsHole(s, h, u);
      CloseWake(s, h, u);
    } else {
      assert InvAt(s, h);
    }
  }

  lemma CreateQueues(s: State, h: Homes, u: Tid)
    requires OneQueue(s, h) && u !in s.status
    ensures var s' := DoCall(s, Create(u)).s; OneQueue(s', h[u := Off])
  {
    var s', h' := DoCall(s, Create(u)).s, h[u := Off];
    forall m
      ensures NoDupAt(s', m)
    {
      assert NoDupAt(s, m);
    }
    forall t | t in s'.status
      ensures HomeOk(s', h', None, t)
    {
      if t != u {
        assert HomeOk(s, h, None, t);
      }
    }
    forall t
      ensures ListsOk(s', h', t)
    {
      assert ListsOk(s, h, t);
    }
    forall m, t
      ensures WaitersOk(s', h', m, t)
    {
      assert WaitersOk(s, h, m, t);
    }
    forall x
      ensures CarryOk(s', h', x)
    {
      assert CarryOk(s, h, x);
    }
  }

  lemma CreateStep(s: State, h: Homes, u: Tid)
    requires InvAt(s, h)
    ensures Good(DoCall(s, Create(u)))
  {
    if u !in s.status {
      var s' := DoCall(s, Create(u)).s;
      CreateQueues(s, h, u);
      assert u !in s.pc && u !in s.expiry;
      QuietPc(s, s');
      assert ListsOk(s, h, u);
      forall t
        ensures Sleep.SameDate(SleepersOf(s), SleepersOf(s'), t)
      {
        assert Dated(SleepersOf(s), t);
      }
      Sleep.SameIndex(SleepersOf(s), SleepersOf(s'));
      assert InvAt(s', h[u := Off]);
    }
  }

  /** Program counters outside the locks do not matter to them. */
  ghost predicate Plain(pc: Pc) {
    pc.Idle? || pc.Waking?
  }

  ghost predicate PcQuiet(l: Locks, l': Locks, t: Tid) {
    && (t in l'.pc && !Plain(l'.pc[t]) ==> t in l.pc && l'.pc[t] == l.pc[t])
    && (t in l.pc && !Plain(l.pc[t]) && l.pc[t] != SleepHasMux ==> t in l'.pc && l'.pc[t] == l.pc[t])
  }

  lemma QuietPcs(l: Locks, l': Locks)
    requires LocksOk(l) && l' == l.(pc := l'.pc)
    requires forall t {:trigger PcQuiet(l, l', t)} :: PcQuiet(l, l', t)
    ensures LocksOk(l')
  {
    forall u, k
      ensures SameWait(l, l', u, k) && GapFree(l', u, k)
    {
      assert PcQuiet(l, l', u) && LockOk(l, u, k);
    }
    forall u
      ensures PcMeansSleep(l', u) && (SleepHolder(l', u) ==> HasMuxOk(l', u))
    {
      assert PcQuiet(l, l', u) && HasMuxOk(l, u);
    }
    QuietKeeps(l, l');
  }

  lemma QuietPc(s: State, s': State)
    requires LocksOk(LocksOf(s)) && s'.mutexes == s.mutexes && s'.sleepMux == s.sleepMux && s'.scan == s.scan
    requires forall t :: t in s.pc ==> t in s'.pc && (s'.pc[t] == s.pc[t] || (Plain(s'.pc[t]) && (Plain(s.pc[t]) || s.pc[t] == SleepHasMux)))
    requires forall t :: t in s'.pc && t !in s.pc ==> Plain(s'.pc[t])
    ensures LocksOk(LocksOf(s'))
  {
    forall t
      ensures PcQuiet(LocksOf(s), LocksOf(s'), t)
    {
    }
    QuietPcs(LocksOf(s), LocksOf(s'));
  }

  lemma StartStep(s: State, h: Homes, u: Tid)
    requires InvAt(s, h)
    ensures Good(DoCall(s, Start(u)))
  {
    if u in s.status && s.status[u].Uninitialized? {
      assert HomeOk(s, h, None, u) && HomeOk(s, h, None, s.running);
      AddIs(s, h, None, u);
      var s' := AddToRun(s, u);
      assert LocksOf(s') == LocksOf(s) && SleepersOf(s') == SleepersOf(s);
      assert InvAt(s', h[u := Queued]);
    }
  }

  // ------------------------------------------------------------------ mutex_lock

  /** Taking the lock, or seeing it owned, moves nobody; `won` and `lost` are where the thread goes. */
  lemma TryQueues(s: State, h: Homes, m: Mid, won: Pc, lost: Pc)
    requires OneQueue(s, h) && LockTry(s, m, won, lost).Step?
    requires !s.pc[s.running].Waking? && !won.Waking? && !lost.Waking?
    ensures SameQueues(s, LockTry(s, m, won, lost).s)
  {
    var x := s.mutexes[m];
    if x.owned {
      SameByPc(s, s.running, lost);
    } else {
      var s1 := WithMutex(s, m, Taken(x, s.running));
      SameByMutex(s, m, Taken(x, s.running));
      SameByPc(s1, s.running, won);
      SameTrans(s, s1, WithPc(s1, s.running, won));
    }
  }

  lemma TryLocks(s: State, m: Mid, won: Pc, lost: Pc, toSleep: bool)
    requires LocksOk(LocksOf(s)) && s.running in s.pc && s.pc[s.running] == Idle && !Scanning(s)
    requires lost == LockGap(m, toSleep) && won == (if toSleep then SleepHasMux else Idle)
    requires toSleep ==> m == s.sleepMux
    requires LockTry(s, m, won, lost).Step?
    ensures LocksOk(LocksOf(LockTry(s, m, won, lost).s))
  {
    var s', t := LockTry(s, m, won, lost).s, s.running;
    var l, l' := LocksOf(s), LocksOf(s');
    forall u, k
      ensures SameWait(l, l', u, k)
    {
    }
    forall u
      ensures PcMeansSleep(l', u)
    {
      assert HasMuxOk(l, u);
    }
    if s.mutexes[m].owned {
      forall u, k
        ensures GapFree(l', u, k)
      {
        assert LockOk(l, u, k);
      }
      forall u: Tid | SleepHolder(l', u)
        ensures HasMuxOk(l', u)
      {
        assert HasMuxOk(l, u);
      }
      QuietKeeps(l, l');
    } else {
      forall u, k
        ensures NoNewGap(l, l', u, k)
      {
      }
      forall u: Tid | SleepHolder(l', u)
        ensures SleepHolder(l, u) || (u == t && m == l.sleepMux)
        ensures l'.who != Some(u)
      {
        assert HasMuxOk(l, u);
      }
      TakeKeeps(l, l', t, m);
    }
  }

  lemma LockStep(s: State, h: Homes, m: Mid)
    requires InvAt(s, h) && s.pc[s.running] == Idle && !Scanning(s)
    ensures Good(DoCall(s, Lock(m)))
  {
    var o := DoCall(s, Lock(m));
    if o.Step? {
      TryQueues(s, h, m, Idle, LockGap(m, false));
      TryLocks(s, m, Idle, LockGap(m, false), false);
      assert SleepersOf(o.s) == SleepersOf(s);
      CloseSame(s, o.s, h);
    }
  }

  lemma SleepStep(s: State, h: Homes, k: int)
    requires InvAt(s, h) && s.pc[s.running] == Idle && !Scanning(s)
    ensures Good(DoCall(s, Call.Sleep(k)))
  {
    var o := DoCall(s, Call.Sleep(k));
    if k <= 0 {
      assert InvAt(s, h);
    } else if o.Step? {
      var e := (s.ticks + k) % (UINT_MAX + 1);
      var s1 := s.(expiry := s.expiry[s.running := e]);
      RunnerFree(s, h);
      SameByIndex(s, s.ticks, s.earliest, s1.expiry, s.scan);
      SameKeeps(s, s1, h, None);
      assert LocksOf(s1) == LocksOf(s);
      forall t
        ensures Sleep.SameDate(SleepersOf(s), SleepersOf(s1), t)
      {
        assert Dated(SleepersOf(s), t);
      }
      Sleep.SameIndex(SleepersOf(s), SleepersOf(s1));
      TryQueues(s1, h, s.sleepMux, SleepHasMux, LockGap(s.sleepMux, true));
      TryLocks(s1, s.sleepMux, SleepHasMux, LockGap(s.sleepMux, true), true);
      assert SleepersOf(o.s) == SleepersOf(s1);
      CloseSame(s1, o.s, h);
    }
  }

  /** The block at the end of mutex_lock. */
  lemma GapStep(s: State, h: Homes, m: Mid, toSleep: bool)
    requires InvAt(s, h) && s.pc[s.running] == LockGap(m, toSleep) && !Scanning(s)
    ensures Good(GoStep(s, s.pc[s.running]))
  {
    var t := s.running;
    var s1 := WithPc(s, t, LockWait(m, toSleep));
    SameByPc(s, t, LockWait(m, toSleep));
    SameKeeps(s, s1, h, None);
    assert LockOk(LocksOf(s), t, m);
    EnqueueMoves(s1, h, m);
    var s2 := Enqueued(WithStatus(s1, t, Blocked), m);
    GapLocks(s, s2, m, toSleep);
    assert SleepersOf(s2) == SleepersOf(s);
    CloseDispatch(s2, h[t := OnMutex(m)]);
  }

  lemma GapLocks(s: State, s2: State, m: Mid, toSleep: bool)
    requires LocksOk(LocksOf(s)) && s.running in s.pc && s.pc[s.running] == LockGap(m, toSleep) && !Scanning(s)
    requires m in s.mutexes
    requires LocksOf(s2) == LocksOf(s).(pc := s.pc[s.running := LockWait(m, toSleep)],
                                        mutexes := s.mutexes[m := Queued1(s.mutexes[m], s.running)])
    ensures LocksOk(LocksOf(s2))
  {
    var t, l, l' := s.running, LocksOf(s), LocksOf(s2);
    forall u, k
      ensures WaitAdded(l, l', t, m, u, k)
    {
    }
    forall u
      ensures PcMeansSleep(l', u) && (SleepHolder(l', u) ==> SleepHolder(l, u))
    {
      assert HasMuxOk(l, u);
    }
    EnqueueKeeps(l, l', t, m);
  }

  lemma LockReturnStep(s: State, h: Homes, m: Mid, toSleep: bool)
    requires InvAt(s, h) && s.pc[s.running] == LockWait(m, toSleep) && !Scanning(s)
    ensures Owns(s, m) && s.mutexes[m].inside == {}
    ensures Good(GoStep(s, s.pc[s.running]))
  {
    var t, l := s.running, LocksOf(s);
    RunnerFree(s, h);
    assert LockOk(l, t, m) && HasMuxOk(l, t);
    var s1 := WithMutex(s, m, s.mutexes[m].(inside := s.mutexes[m].inside + {t}));
    var pc := if toSleep then SleepHasMux else Idle;
    var s' := WithPc(s1, t, pc);
    SameByMutex(s, m, s1.mutexes[m]);
    SameByPc(s1, t, pc);
    SameTrans(s, s1, s');
    ReturnLocks(s, s', m, toSleep);
    assert SleepersOf(s') == SleepersOf(s);
    CloseSame(s, s', h);
  }

  lemma ReturnLocks(s: State, s': State, m: Mid, toSleep: bool)
    requires LocksOk(LocksOf(s)) && s.running in s.pc && s.pc[s.running] == LockWait(m, toSleep) && !Scanning(s)
    requires m in s.mutexes && s.running !in s.mutexes[m].waiters
    requires LocksOf(s') == LocksOf(s).(pc := s.pc[s.running := if toSleep then SleepHasMux else Idle],
                              mutexes := s.mutexes[m := s.mutexes[m].(inside := s.mutexes[m].inside + {s.running})])
    ensures LocksOk(LocksOf(s'))
  {
    var t, l, l' := s.running, LocksOf(s), LocksOf(s');
    assert HasMuxOk(l, t);
    forall u, k
      ensures WaitDropped(l, l', t, m, u, k)
    {
      assert LockOk(l, u, k);
    }
    forall u
      ensures PcMeansSleep(l', u)
      ensures SleepHolder(l', u) ==> SleepHolder(l, u) || (u == t && m == l.sleepMux && l.who != Some(t))
    {
      assert HasMuxOk(l, u);
    }
    ReturnKeeps(l, l', t, m);
  }

  // ------------------------------------------------------------------ mutex_unlock

  /** The owner leaves m: the lock is free, or the first waiter's. */
  lemma LeaveLocks(s: State, s': State, m: Mid, pc: Pc)
    requires LocksOk(LocksOf(s)) && s.running in s.pc && s.pc[s.running] == Idle && !Scanning(s) && Owns(s, m)
    requires s.running !in s.mutexes[m].waiters && NoDup(s.mutexes[m].waiters) && Plain(pc)
    requires var x := s.mutexes[m];
             LocksOf(s') == LocksOf(s).(pc := s.pc[s.running := pc],
               mutexes := s.mutexes[m := if x.waiters == [] then Freed(x, s.running) else HandedOff(x, s.running)])
    ensures LocksOk(LocksOf(s'))
  {
    var t, l, l' := s.running, LocksOf(s), LocksOf(s');
    forall u, k
      ensures SameWait(l, l', u, k) && GapOnly(l, l', t, m, u, k)
    {
    }
    forall u
      ensures NoNewHolder(l, l', t, u)
    {
      assert HasMuxOk(l, u);
    }
    if s.mutexes[m].waiters == [] {
      FreeKeeps(l, l', t, m);
    } else {
      HandOffKeeps(l, l', t, m);
    }
  }

  lemma UnlockStep(s: State, h: Homes, m: Mid)
    requires InvAt(s, h) && s.pc[s.running] == Idle && !Scanning(s)
    ensures Good(DoCall(s, Unlocks(m)))
  {
    var t, o := s.running, DoCall(s, Unlocks(m));
    if Owns(s, m) {
      var x := s.mutexes[m];
      RunnerFree(s, h);
      assert SleepersOf(o.s) == SleepersOf(s);
      if x.waiters == [] {
        assert s.pc == s.pc[t := Idle];
        LeaveLocks(s, o.s, m, Idle);
        SameByMutex(s, m, Freed(x, t));
        CloseSame(s, o.s, h);
      } else {
        var w := x.waiters[0];
        LeaveLocks(s, o.s, m, Waking(w));
        HandOffMoves(s, h, m);
        CarryMoves(WithMutex(s, m, HandedOff(x, t)), h[w := Off], w);
        assert InvAt(o.s, h[w := Off][w := Carried(t)]);
      }
    }
  }

  lemma WakingStep(s: State, h: Homes, u: Tid)
    requires InvAt(s, h) && s.pc[s.running] == Waking(u) && !Scanning(s)
    ensures Good(GoStep(s, s.pc[s.running]))
  {
    UncarryMoves(s, h, u);
    var s1 := WithPc(s, s.running, Idle);
    QuietPc(s, s1);
    assert SleepersOf(s1) == SleepersOf(s);
    CloseWake(s1, h[u := Off], u);
  }

  // ------------------------------------------------------------------ callbacks that unlock

  /** switch_safe_mutex_unlock on a state whose running thread is already stored. */
  lemma SafeUnlockStep(s: State, h: Homes, m: Mid) returns (h': Homes)
    requires QueuesOk(s, h, None) && h[s.running] != Runs && !h[s.running].OnMutex? && RestOk(s)
    requires s.pc[s.running] == Idle && !Scanning(s) && Owns(s, m)
    ensures SafeUnlock(s, m).Step? && Stored(SafeUnlock(s, m).s, h') && RestOk(SafeUnlock(s, m).s)
    ensures h'[s.running] == h[s.running] && SafeUnlock(s, m).s.running == s.running
    ensures forall t :: t in h && !h[t].OnMutex? ==> t in h' && h'[t] == h[t]
  {
    h' := SafeUnlockMoves(s, h, m);
    var s' := SafeUnlock(s, m).s;
    assert WaitersOk(s, h, m, s.running) && NoDupAt(s, m);
    assert s.pc == s.pc[s.running := Idle];
    var x := s.mutexes[m];
    if x.waiters != [] {
      HandOffMoves(s, h, m);
    }
    LeaveLocks(s, s', m, Idle);
    assert SleepersOf(s') == SleepersOf(s);
  }

  lemma CloseSafeUnlock(s: State, h: Homes, m: Mid)
    requires QueuesOk(s, h, None) && h[s.running] != Runs && !h[s.running].OnMutex? && RestOk(s)
    requires s.pc[s.running] == Idle && !Scanning(s)
    ensures var o := SafeUnlock(s, m); if o.Step? then Good(Dispatch(o.s)) else o == Panic(NotOwner)
  {
    if Owns(s, m) {
      var h' := SafeUnlockStep(s, h, m);
      CloseDispatch(SafeUnlock(s, m).s, h');
    }
  }

  lemma SleepStored(s: State, h: Homes)
    requires InvAt(s, h) && s.pc[s.running] == SleepHasMux && !Scanning(s)
    ensures var s2 := StoredAsleep(WithStatus(WithPc(s, s.running, Idle), s.running, Blocked));
            Stored(s2, h[s.running := Asleep]) && RestOk(s2) && Owns(s2, s.sleepMux)
  {
    var t := s.running;
    var s1 := WithPc(s, t, Idle);
    SameByPc(s, t, Idle);
    SameKeeps(s, s1, h, None);
    SleepMoves(s1, h);
    SleepRest(s);
  }

  lemma SleepRest(s: State)
    requires RestOk(s) && s.running in s.pc && s.running in s.expiry && s.pc[s.running] == SleepHasMux && !Scanning(s)
    ensures var s2 := StoredAsleep(WithStatus(WithPc(s, s.running, Idle), s.running, Blocked));
            RestOk(s2) && Owns(s2, s.sleepMux)
  {
    var t := s.running;
    var s1 := WithPc(s, t, Idle);
    QuietPc(s, s1);
    assert HasMuxOk(LocksOf(s), t);
    var s2 := StoredAsleep(WithStatus(s1, t, Blocked));
    assert LocksOf(s2) == LocksOf(s1);
    assert SleepersOf(s2) == Sleep.StoredIn(SleepersOf(s), t);
    Sleep.StoreKeeps(SleepersOf(s), t);
  }

  /** sleep with the mutex in hand: the yield that stores the thread and releases sleep_mux. */
  lemma SleepBlockStep(s: State, h: Homes)
    requires InvAt(s, h) && s.pc[s.running] == SleepHasMux && !Scanning(s)
    ensures GoStep(s, s.pc[s.running]) != Panic(NotOwner) && Good(GoStep(s, s.pc[s.running]))
  {
    var s2 := StoredAsleep(WithStatus(WithPc(s, s.running, Idle), s.running, Blocked));
    SleepStored(s, h);
    var h' := SafeUnlockStep(s2, h[s.running := Asleep], s.sleepMux);
    CloseDispatch(SafeUnlock(s2, s.sleepMux).s, h');
  }

  lemma YieldGood(s: State, store: Status, cb: Callback)
    requires store.Descheduled? || store.Blocked? || store.Dead?
    requires var o := RunCallback(WithStatus(s, s.running, store), cb);
             if o.Step? then Good(Dispatch(o.s)) else Good(o)
    ensures Good(YieldExecution(s, store, None, cb))
  {
  }

  lemma WaitStep(s: State, h: Homes, m: Mid)
    requires InvAt(s, h) && s.pc[s.running] == Idle && !Scanning(s)
    ensures Good(DoCall(s, Wait(m)))
  {
    ParkMoves(s, h);
    var s1 := WithStatus(s, s.running, Blocked).(parked := s.parked + {s.running});
    assert LocksOf(s1) == LocksOf(s) && SleepersOf(s1) == SleepersOf(s);
    CloseSafeUnlock(s1, h[s.running := Parked], m);
    YieldGood(s, Blocked, StoreParked(m));
  }

  lemma VanishPlain(s: State, h: Homes)
    requires InvAt(s, h)
    ensures Good(YieldExecution(s, Dead, None, NoCallback))
  {
    OffMoves(s, h, Dead);
    var s1 := WithStatus(s, s.running, Dead);
    assert LocksOf(s1) == LocksOf(s) && SleepersOf(s1) == SleepersOf(s);
    CloseDispatch(s1, h[s.running := Off]);
    YieldGood(s, Dead, NoCallback);
  }

  lemma VanishUnlocking(s: State, h: Homes, m: Mid)
    requires InvAt(s, h) && s.pc[s.running] == Idle && !Scanning(s)
    ensures Good(YieldExecution(s, Dead, None, UnlockMux(m)))
  {
    OffMoves(s, h, Dead);
    var s1 := WithStatus(s, s.running, Dead);
    assert LocksOf(s1) == LocksOf(s) && SleepersOf(s1) == SleepersOf(s);
    CloseSafeUnlock(s1, h[s.running := Off], m);
    YieldGood(s, Dead, UnlockMux(m));
  }

  lemma VanishAssigning(s: State, h: Homes, m: Mid, u: Tid)
    requires InvAt(s, h) && s.pc[s.running] == Idle && !Scanning(s)
    ensures Good(YieldExecution(s, Dead, None, AssignChild(m, u)))
  {
    OffMoves(s, h, Dead);
    var s1 := WithStatus(s, s.running, Dead);
    assert LocksOf(s1) == LocksOf(s) && SleepersOf(s1) == SleepersOf(s);
    AssignStep(s1, h[s.running := Off], m, u);
    YieldGood(s, Dead, AssignChild(m, u));
  }

  lemma VanishStep(s: State, h: Homes, cb: Callback)
    requires InvAt(s, h) && s.pc[s.running] == Idle && !Scanning(s)
    ensures Good(DoCall(s, Vanish(cb)))
  {
    match cb
    case NoCallback => VanishPlain(s, h);
    case UnlockMux(m) => VanishUnlocking(s, h, m);
    case AssignChild(m, u) => VanishAssigning(s, h, m, u);
    case _ =>
  }

  /** Unlocking does not look at the other lists. */
  lemma UnlockThenUnpark(s: State, m: Mid, u: Tid)
    requires SafeUnlock(s, m).Step?
    ensures var s1 := SafeUnlock(s, m).s;
            s1.parked == s.parked
            && SafeUnlock(s.(parked := s.parked - {u}), m) == Step(s1.(parked := s.parked - {u}))
  {
  }

  lemma UnparkAndDispatch(s: State, h: Homes, u: Tid)
    requires Stored(s, h) && RestOk(s) && u in s.parked && u != s.running
    ensures var s1 := s.(parked := s.parked - {u});
            var o := MakeThreadRunnable(s1, u, true);
            o.Step? && Good(Dispatch(o.s))
  {
    UnparkMoves(s, h, u);
    var s1 := s.(parked := s.parked - {u});
    AddIs(s1, h[u := Off], Some(u), u);
    var s2 := AddToRun(s1, u);
    assert LocksOf(s2) == LocksOf(s) && SleepersOf(s2) == SleepersOf(s);
    CloseDispatch(s2, h[u := Off][u := Queued]);
  }

  /** A thread taken off the list it was parked on goes to the runnable queue. */
  lemma AssignStep(s: State, h: Homes, m: Mid, u: Tid)
    requires QueuesOk(s, h, None) && h[s.running] == Off && RestOk(s)
    requires s.pc[s.running] == Idle && !Scanning(s)
    ensures var o := Assign(s, m, u); if o.Step? then Good(Dispatch(o.s)) else o != Panic(Broken)
  {
    if u in s.parked && u in s.status && s.status[u] == Blocked && !InSomeQueue(s, u) && Owns(s, m) {
      assert ListsOk(s, h, u);
      var h1 := SafeUnlockStep(s, h, m);
      UnlockThenUnpark(s, m, u);
      UnparkAndDispatch(SafeUnlock(s, m).s, h1, u);
    }
  }
}
