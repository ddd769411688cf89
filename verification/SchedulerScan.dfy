/** Every step of the machine keeps its invariant: ticks and the scan of the sleep queue. */
module SchedulerScan {
  import opened Seqs
  import opened Scheduler
  import opened SchedulerInvariant
  import opened SchedulerQueues
  import opened SchedulerMoves
  import opened SchedulerLocks
  import opened SchedulerSteps
  import Sleep = SchedulerSleep

  lemma PreemptStep(s: State, h: Homes)
    requires InvAt(s, h)
    ensures Good(Preempt(s)) && Preempt(s).Step?
  {
    AddSelf(s, h, None);
    var s1 := AddToRun(s, s.running);
    assert LocksOf(s1) == LocksOf(s) && SleepersOf(s1) == SleepersOf(s);
    var h' := DispatchKeeps(s1, h[s.running := Queued]);
    CloseDispatch(s1, h[s.running := Queued]);
  }

  lemma Ticked(s: State, h: Homes)
    requires InvAt(s, h)
    ensures InvAt(s.(ticks := s.ticks + 1), h)
  {
    var s1 := s.(ticks := s.ticks + 1);
    SameByIndex(s, s1.ticks, s.earliest, s.expiry, s.scan);
    SameKeeps(s, s1, h, None);
    assert LocksOf(s1) == LocksOf(s);
    Sleep.TimePasses(SleepersOf(s), SleepersOf(s1));
  }

  lemma TickStep(s: State, h: Homes)
    requires InvAt(s, h)
    ensures Good(Tick(s))
  {
    var s1 := s.(ticks := s.ticks + 1);
    Ticked(s, h);
    if s1.ticks < UINT_MAX {
      if s.scan == None && s1.ticks >= s.earliest {
        StartStepGood(s1, h);
      } else if s1.ticks % WAIT_TICKS == 0 {
        PreemptStep(s1, h);
      } else {
        assert Inv(s1);
      }
    }
  }

  // ------------------------------------------------------------------ the scan starts

  lemma ResetIndex(s: State, c: Scan)
    requires IndexOk(SleepersOf(s)) && s.scan == None && s.ticks < UINT_MAX
    requires c == BeginScan(s).(phase := ScanGap)
    ensures IndexOk(SleepersOf(s.(earliest := UINT_MAX, scan := Some(c))))
    ensures IndexOk(SleepersOf(s.(earliest := UINT_MAX, scan := Some(BeginScan(s)))))
  {
    var z := SleepersOf(s);
    Sleep.ResetKeeps(z, c);
    Sleep.BeginKeeps(z.(earliest := UINT_MAX, scan := Some(c)), c, BeginScan(s));
  }

  lemma LostLocks(s: State, s': State)
    requires LocksOk(LocksOf(s)) && s.scan == None && s.running !in s.mutexes[s.sleepMux].waiters
    requires !Owns(s, s.sleepMux)
    requires LocksOf(s') == LocksOf(s).(who := Some(s.running), phase := ScanGap)
    ensures LocksOk(LocksOf(s'))
  {
    var t, l, l' := s.running, LocksOf(s), LocksOf(s');
    forall u, k
      ensures SameWait(l, l', u, k) && GapFree(l', u, k)
    {
      assert LockOk(l, u, k) && LockOk(l, t, s.sleepMux);
    }
    forall u: Tid
      ensures PcMeansSleep(l', u) && (SleepHolder(l', u) ==> HasMuxOk(l', u))
    {
      assert HasMuxOk(l, u);
    }
    QuietKeeps(l, l');
  }

  lemma WonLocks(s: State, s': State)
    requires LocksOk(LocksOf(s)) && s.scan == None && !s.mutexes[s.sleepMux].owned
    requires LocksOf(s') == LocksOf(s).(who := Some(s.running), phase := ScanLoop,
                              mutexes := s.mutexes[s.sleepMux := Taken(s.mutexes[s.sleepMux], s.running)])
    ensures LocksOk(LocksOf(s'))
  {
    var t, l, l' := s.running, LocksOf(s), LocksOf(s');
    forall u, k
      ensures SameWait(l, l', u, k) && NoNewGap(l, l', u, k)
    {
    }
    forall u: Tid
      ensures PcMeansSleep(l', u)
      ensures SleepHolder(l', u) ==> (SleepHolder(l, u) || (u == t && s.sleepMux == l.sleepMux)) && l'.who != Some(u)
    {
      assert HasMuxOk(l, u);
    }
    TakeKeeps(l, l', t, s.sleepMux);
  }

  lemma StartStepGood(s: State, h: Homes)
    requires InvAt(s, h) && s.scan == None && s.ticks < UINT_MAX
    ensures Good(StartScan(s))
  {
    var o := StartScan(s);
    if o.Step? {
      RunnerFree(s, h);
      ResetIndex(s, BeginScan(s).(phase := ScanGap));
      var x := s.mutexes[s.sleepMux];
      var s1 := s.(earliest := UINT_MAX, scan := o.s.scan);
      SameByIndex(s, s.ticks, UINT_MAX, s.expiry, o.s.scan);
      if x.owned {
        LostLocks(s, o.s);
      } else {
        SameByMutex(s1, s.sleepMux, Taken(x, s.running));
        SameTrans(s, s1, o.s);
        WonLocks(s, o.s);
      }
      CloseSame(s, o.s, h);
    }
  }

  // ------------------------------------------------------------------ the scan blocks on sleep_mux and comes back

  lemma ScanGapLocks(s: State, s': State)
    requires LocksOk(LocksOf(s)) && Scanning(s) && s.scan.value.phase == ScanGap
    requires LocksOf(s') == LocksOf(s).(phase := ScanWait,
                              mutexes := s.mutexes[s.sleepMux := Queued1(s.mutexes[s.sleepMux], s.running)])
    ensures LocksOk(LocksOf(s'))
  {
    var t, l, l' := s.running, LocksOf(s), LocksOf(s');
    assert LockOk(l, t, s.sleepMux);
    forall u, k
      ensures WaitAdded(l, l', t, s.sleepMux, u, k)
    {
    }
    forall u: Tid
      ensures PcMeansSleep(l', u) && (SleepHolder(l', u) ==> SleepHolder(l, u))
    {
      assert HasMuxOk(l, u);
    }
    EnqueueKeeps(l, l', t, s.sleepMux);
  }

  lemma ScanGapStored(s: State, h: Homes, c: Scan)
    requires OneQueue(s, h) && s.scan == Some(c) && c.phase == ScanGap
    ensures var s2 := Enqueued(WithStatus(WithScan(s, c.(phase := ScanWait)), s.running, Blocked), s.sleepMux);
            Stored(s2, h[s.running := OnMutex(s.sleepMux)])
  {
    var s1 := WithScan(s, c.(phase := ScanWait));
    SameByIndex(s, s.ticks, s.earliest, s.expiry, s1.scan);
    SameKeeps(s, s1, h, None);
    EnqueueMoves(s1, h, s.sleepMux);
  }

  lemma ScanGapStep(s: State, h: Homes, c: Scan)
    requires InvAt(s, h) && Scanning(s) && s.scan == Some(c) && c.phase == ScanGap
    ensures Good(ScanStep(s, c))
  {
    ScanGapStored(s, h, c);
    var s2 := Enqueued(WithStatus(WithScan(s, c.(phase := ScanWait)), s.running, Blocked), s.sleepMux);
    ScanGapLocks(s, s2);
    Sleep.PhaseKeeps(SleepersOf(s), c, c.(phase := ScanWait));
    assert SleepersOf(s2) == SleepersOf(s).(scan := Some(c.(phase := ScanWait)));
    CloseDispatch(s2, h[s.running := OnMutex(s.sleepMux)]);
  }

  lemma ScanWaitLocks(s: State, s': State)
    requires LocksOk(LocksOf(s)) && Scanning(s) && s.scan.value.phase == ScanWait
    requires s.running !in s.mutexes[s.sleepMux].waiters
    requires var x := s.mutexes[s.sleepMux];
             LocksOf(s') == LocksOf(s).(phase := ScanLoop,
                              mutexes := s.mutexes[s.sleepMux := x.(inside := x.inside + {s.running})])
    ensures Owns(s, s.sleepMux) && LocksOk(LocksOf(s'))
  {
    var t, l, l' := s.running, LocksOf(s), LocksOf(s');
    assert HasMuxOk(l, t) && LockOk(l, t, s.sleepMux);
    forall u, k
      ensures WaitDropped(l, l', t, s.sleepMux, u, k)
    {
      assert LockOk(l, u, k);
    }
    forall u: Tid
      ensures PcMeansSleep(l', u)
      ensures SleepHolder(l', u) ==> SleepHolder(l, u) || (u == t && s.sleepMux == l.sleepMux && l.who != Some(t))
    {
      assert HasMuxOk(l, u);
    }
    ReturnKeeps(l, l', t, s.sleepMux);
  }

  lemma ScanWaitStep(s: State, h: Homes, c: Scan)
    requires InvAt(s, h) && Scanning(s) && s.scan == Some(c) && c.phase == ScanWait
    ensures Good(ScanStep(s, c))
  {
    RunnerFree(s, h);
    var x := s.mutexes[s.sleepMux];
    var c' := c.(phase := ScanLoop, rest := s.sleepq, start := s.sleepq, dates := s.expiry);
    var s1 := WithScan(s, c');
    var s' := WithScan(WithMutex(s, s.sleepMux, x.(inside := x.inside + {s.running})), c');
    ScanWaitLocks(s, s');
    SameByIndex(s, s.ticks, s.earliest, s.expiry, Some(c'));
    SameByMutex(s1, s.sleepMux, s'.mutexes[s.sleepMux]);
    SameTrans(s, s1, s');
    Sleep.BeginKeeps(SleepersOf(s), c, c');
    assert SleepersOf(s') == SleepersOf(s).(scan := Some(c'));
    CloseSame(s, s', h);
  }

  // ------------------------------------------------------------------ the loop

  /** A change of phase that keeps the lock, or stays outside it. */
  lemma PhaseLocks(s: State, s': State)
    requires LocksOk(LocksOf(s)) && s.scan.Some? && s'.mutexes == s.mutexes && s'.pc == s.pc
             && s'.sleepMux == s.sleepMux
    requires s'.scan.Some? ==> s'.scan.value.who == s.scan.value.who
    requires if Looping(s.scan.value) then s'.scan.Some? && Looping(s'.scan.value)
             else (s.scan.value.phase.ScanHand? || s.scan.value.phase.ScanDone?)
                  && (s'.scan.Some? ==> s'.scan.value.phase == ScanDone)
    ensures LocksOk(LocksOf(s'))
  {
    var l, l' := LocksOf(s), LocksOf(s');
    forall u, k
      ensures SameWait(l, l', u, k) && GapFree(l', u, k)
    {
      assert LockOk(l, u, k);
    }
    forall u: Tid
      ensures PcMeansSleep(l', u) && (SleepHolder(l', u) ==> HasMuxOk(l', u))
    {
      assert HasMuxOk(l, u);
    }
    QuietKeeps(l, l');
  }

  lemma ScanKeepStep(s: State, h: Homes, c: Scan)
    requires InvAt(s, h) && Scanning(s) && s.scan == Some(c) && c.phase == ScanLoop && c.rest != []
    requires c.rest[0] in s.expiry && c.now < s.expiry[c.rest[0]] && c.rest[0] in s.sleepq
    ensures Good(ScanOne(s, c))
  {
    var s' := ScanOne(s, c).s;
    SameByIndex(s, s.ticks, s'.earliest, s.expiry, s'.scan);
    PhaseLocks(s, s');
    Sleep.KeepOne(SleepersOf(s), c);
    assert SleepersOf(s') == Sleep.KeptOne(SleepersOf(s), c);
    CloseSame(s, s', h);
  }

  lemma ScanTakeStep(s: State, h: Homes, c: Scan)
    requires InvAt(s, h) && Scanning(s) && s.scan == Some(c) && c.phase == ScanLoop && c.rest != []
    requires c.rest[0] in s.expiry && s.expiry[c.rest[0]] <= c.now && c.rest[0] in s.sleepq
    ensures Good(ScanOne(s, c))
  {
    var u, s' := c.rest[0], ScanOne(s, c).s;
    UnsleepMoves(s, h, u);
    var s1 := s.(sleepq := Without(s.sleepq, u));
    ScanCarryMoves(s1, h[u := Off], s'.scan.value, u);
    PhaseLocks(s, s');
    Sleep.WakeOne(SleepersOf(s), c);
    assert SleepersOf(s') == Sleep.WokenOne(SleepersOf(s), c);
    assert ListsOk(s, h, s.running);
    assert InvAt(s', h[u := Off][u := CarriedByScan]);
  }

  lemma ScanOneStep(s: State, h: Homes, c: Scan)
    requires InvAt(s, h) && Scanning(s) && s.scan == Some(c) && c.phase == ScanLoop && c.rest != []
    ensures Good(ScanOne(s, c))
  {
    var u := c.rest[0];
    assert u in s.sleepq && Dated(SleepersOf(s), u);
    if s.expiry[u] <= c.now {
      ScanTakeStep(s, h, c);
    } else {
      ScanKeepStep(s, h, c);
    }
  }

  lemma ScanLeaveLocks(s: State, s': State, phase: Phase)
    requires LocksOk(LocksOf(s)) && Scanning(s) && s.scan.value.phase == ScanLoop
    requires s.running !in s.mutexes[s.sleepMux].waiters && NoDup(s.mutexes[s.sleepMux].waiters)
    requires phase.ScanDone? || phase.ScanHand?
    requires var x := s.mutexes[s.sleepMux];
             LocksOf(s') == LocksOf(s).(phase := phase,
                mutexes := s.mutexes[s.sleepMux := if x.waiters == [] then Freed(x, s.running) else HandedOff(x, s.running)])
    ensures LocksOk(LocksOf(s'))
  {
    var t, m, l, l' := s.running, s.sleepMux, LocksOf(s), LocksOf(s');
    assert LockOk(l, t, m);
    forall u, k
      ensures SameWait(l, l', u, k) && GapOnly(l, l', t, m, u, k)
    {
    }
    forall u: Tid
      ensures NoNewHolder(l, l', t, u)
    {
      assert HasMuxOk(l, u);
    }
    if s.mutexes[m].waiters == [] {
      FreeKeeps(l, l', t, m);
    } else {
      HandOffKeeps(l, l', t, m);
    }
  }

  lemma ScanUnlockStep(s: State, h: Homes, c: Scan)
    requires InvAt(s, h) && Scanning(s) && s.scan == Some(c) && c.phase == ScanLoop && c.rest == []
    ensures ScanUnlock(s, c).Step? && Good(ScanUnlock(s, c))
  {
    var o, x := ScanUnlock(s, c), s.mutexes[s.sleepMux];
    RunnerFree(s, h);
    assert Owns(s, s.sleepMux);
    var c' := o.s.scan.value;
    Sleep.EndKeeps(SleepersOf(s), c, c');
    assert SleepersOf(o.s) == SleepersOf(s).(scan := Some(c'));
    ScanLeaveLocks(s, o.s, c'.phase);
    if x.waiters == [] {
      var s1 := WithMutex(s, s.sleepMux, Freed(x, s.running));
      SameByMutex(s, s.sleepMux, Freed(x, s.running));
      SameByIndex(s1, s.ticks, s.earliest, s.expiry, Some(c'));
      SameTrans(s, s1, o.s);
      CloseSame(s, o.s, h);
    } else {
      var w := x.waiters[0];
      HandOffMoves(s, h, s.sleepMux);
      ScanCarryMoves(WithMutex(s, s.sleepMux, HandedOff(x, s.running)), h[w := Off], c', w);
      assert InvAt(o.s, h[w := Off][w := CarriedByScan]);
    }
  }

  /** make_thread_runnable on a sleeper, or on the next owner of sleep_mux. */
  lemma ScanWakeStep(s: State, h: Homes, c: Scan)
    requires InvAt(s, h) && Scanning(s) && s.scan == Some(c) && (c.phase.ScanWake? || c.phase.ScanHand?)
    ensures Good(ScanStep(s, c))
  {
    var u := c.phase.u;
    var c' := c.(phase := if c.phase.ScanWake? then ScanLoop else ScanDone);
    var s1 := WithScan(s, c');
    ScanUncarryMoves(s, h, c', u);
    PhaseLocks(s, s1);
    Sleep.PhaseKeeps(SleepersOf(s), c, c');
    assert SleepersOf(s1) == SleepersOf(s).(scan := Some(c'));
    CloseWake(s1, h[u := Off], u);
  }

  lemma ScanDoneStep(s: State, h: Homes, c: Scan)
    requires InvAt(s, h) && Scanning(s) && s.scan == Some(c) && c.phase == ScanDone
    ensures Good(ScanStep(s, c))
  {
    var s' := s.(scan := None);
    SameByIndex(s, s.ticks, s.earliest, s.expiry, None);
    PhaseLocks(s, s');
    Sleep.DoneKeeps(SleepersOf(s));
    assert SleepersOf(s') == SleepersOf(s).(scan := None);
    CloseSame(s, s', h);
  }

  lemma ScanGood(s: State, h: Homes, c: Scan)
    requires InvAt(s, h) && Scanning(s) && s.scan == Some(c)
    ensures Good(ScanStep(s, c))
  {
    match c.phase
    case ScanGap => ScanGapStep(s, h, c);
    case ScanWait => ScanWaitStep(s, h, c);
    case ScanLoop =>
      if c.rest == [] {
        ScanUnlockStep(s, h, c);
      } else {
        ScanOneStep(s, h, c);
      }
    case ScanWake(_) => ScanWakeStep(s, h, c);
    case ScanHand(_) => ScanWakeStep(s, h, c);
    case ScanDone => ScanDoneStep(s, h, c);
  }
}
