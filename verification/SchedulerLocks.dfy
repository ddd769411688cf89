/** What each lock operation does to the owners, the queues and the threads inside. */
module SchedulerLocks {
  import opened Seqs
  import opened Scheduler
  import opened SchedulerInvariant
  import opened SchedulerQueues

  /** Who waits and who is at a gap, before and after.  `t` is the thread that steps. */
  ghost predicate SameWait(l: Locks, l': Locks, u: Tid, k: Mid) {
    WaitsFor(l', u, k) == WaitsFor(l, u, k)
  }

  ghost predicate SameWaits(l: Locks, l': Locks) {
    && l'.sleepMux == l.sleepMux
    && (forall u, k {:trigger SameWait(l, l', u, k)} :: SameWait(l, l', u, k))
  }

  ghost predicate NoNewGap(l: Locks, l': Locks, u: Tid, k: Mid) {
    AtGap(l', u, k) ==> AtGap(l, u, k)
  }

  ghost predicate SleepHolder(l: Locks, u: Tid) {
    u in l.pc && l.pc[u] == SleepHasMux
  }

  /** Program counters that mean sleep_mux still do, and its holders in sleep held it before. */
  ghost predicate NoNewHolder(l: Locks, l': Locks, t: Tid, u: Tid) {
    && (SleepHolder(l', u) ==> SleepHolder(l, u) && u != t && l'.who == l.who)
    && PcMeansSleep(l', u)
  }

  ghost predicate PcMeansSleep(l: Locks, u: Tid) {
    && (u in l.pc && l.pc[u].LockGap? && l.pc[u].toSleep ==> l.pc[u].m == l.sleepMux)
    && (u in l.pc && l.pc[u].LockWait? && l.pc[u].toSleep ==> l.pc[u].m == l.sleepMux)
    && OneWait(l, u)
  }

  ghost predicate GapFree(l: Locks, u: Tid, k: Mid) {
    AtGap(l, u, k) ==> k in l.mutexes && !OwnsIn(l, u, k) && !WaitsFor(l, u, k)
  }

  /** No mutex changes. */
  lemma QuietKeeps(l: Locks, l': Locks)
    requires LocksOk(l) && SameWaits(l, l') && l'.mutexes == l.mutexes
    requires forall u, k {:trigger GapFree(l', u, k)} :: GapFree(l', u, k)
    requires forall u {:trigger PcMeansSleep(l', u)} :: PcMeansSleep(l', u) && (SleepHolder(l', u) ==> HasMuxOk(l', u))
    requires ScanHas(l') ==> ScanHas(l) && l'.who == l.who
    ensures LocksOk(l')
  {
    forall m | m in l'.mutexes
      ensures MutexOk(l', m)
    {
      assert MutexOk(l, m) && SameWait(l, l', l.mutexes[m].owner, m);
    }
    forall u, k
      ensures LockOk(l', u, k)
    {
      assert LockOk(l, u, k) && SameWait(l, l', u, k) && GapFree(l', u, k);
    }
    forall u
      ensures HasMuxOk(l', u)
    {
      assert PcMeansSleep(l', u);
    }
  }

  /** `t` takes a free mutex. */
  lemma TakeKeeps(l: Locks, l': Locks, t: Tid, m: Mid)
    requires LocksOk(l) && SameWaits(l, l')
    requires m in l.mutexes && !l.mutexes[m].owned && l'.mutexes == l.mutexes[m := Taken(l.mutexes[m], t)]
    requires forall u, k {:trigger NoNewGap(l, l', u, k)} :: NoNewGap(l, l', u, k)
    requires !AtGap(l', t, m)
    requires forall u {:trigger PcMeansSleep(l', u)} ::
               PcMeansSleep(l', u)
               && (SleepHolder(l', u) ==> (SleepHolder(l, u) || (u == t && m == l.sleepMux)) && l'.who != Some(u))
    requires ScanHas(l') ==> (ScanHas(l) && l'.who == l.who) || (l'.who == Some(t) && m == l.sleepMux)
    ensures LocksOk(l')
  {
    assert MutexOk(l, m);
    forall k | k in l'.mutexes
      ensures MutexOk(l', k)
    {
      assert MutexOk(l, k) && SameWait(l, l', l.mutexes[k].owner, k);
    }
    forall u, k
      ensures LockOk(l', u, k)
    {
      assert LockOk(l, u, k) && SameWait(l, l', u, k) && NoNewGap(l, l', u, k);
    }
    forall u
      ensures HasMuxOk(l', u)
    {
      assert PcMeansSleep(l', u) && HasMuxOk(l, u);
    }
  }

  ghost predicate WaitAdded(l: Locks, l': Locks, t: Tid, m: Mid, u: Tid, k: Mid) {
    && (WaitsFor(l', u, k) <==> WaitsFor(l, u, k) || (u == t && k == m))
    && (AtGap(l', u, k) ==> AtGap(l, u, k) && !(u == t && k == m))
  }

  function Queued1(x: Mutex, t: Tid): Mutex {
    x.(waiters := x.waiters + [t], enq := x.enq + [t])
  }

  /** `t` goes from the gap to the tail of the queue. */
  lemma EnqueueKeeps(l: Locks, l': Locks, t: Tid, m: Mid)
    requires LocksOk(l) && AtGap(l, t, m) && l'.sleepMux == l.sleepMux
    requires m in l.mutexes && l'.mutexes == l.mutexes[m := Queued1(l.mutexes[m], t)]
    requires forall u, k {:trigger WaitAdded(l, l', t, m, u, k)} :: WaitAdded(l, l', t, m, u, k)
    requires forall u {:trigger PcMeansSleep(l', u)} ::
               PcMeansSleep(l', u) && (SleepHolder(l', u) ==> SleepHolder(l, u))
    requires l'.who == l.who && (ScanHas(l') ==> ScanHas(l))
    ensures LocksOk(l')
  {
    assert LockOk(l, t, m);
    forall k | k in l'.mutexes
      ensures MutexOk(l', k)
    {
      assert MutexOk(l, k) && WaitAdded(l, l', t, m, l.mutexes[k].owner, k);
    }
    forall u, k
      ensures LockOk(l', u, k)
    {
      assert LockOk(l, u, k) && WaitAdded(l, l', t, m, u, k);
    }
    forall u
      ensures HasMuxOk(l', u)
    {
      assert PcMeansSleep(l', u) && HasMuxOk(l, u);
    }
  }

  ghost predicate WaitDropped(l: Locks, l': Locks, t: Tid, m: Mid, u: Tid, k: Mid) {
    && (WaitsFor(l', u, k) <==> WaitsFor(l, u, k) && !(u == t && k == m))
    && (AtGap(l', u, k) ==> AtGap(l, u, k) && !(u == t && k == m))
  }

  /** mutex_lock returns in a thread that was handed the mutex. */
  lemma ReturnKeeps(l: Locks, l': Locks, t: Tid, m: Mid)
    requires LocksOk(l) && WaitsFor(l, t, m) && l'.sleepMux == l.sleepMux
    requires m in l.mutexes && t !in l.mutexes[m].waiters
    requires l'.mutexes == l.mutexes[m := l.mutexes[m].(inside := l.mutexes[m].inside + {t})]
    requires forall u, k {:trigger WaitDropped(l, l', t, m, u, k)} :: WaitDropped(l, l', t, m, u, k)
    requires forall u {:trigger PcMeansSleep(l', u)} ::
               PcMeansSleep(l', u)
               && (SleepHolder(l', u) ==> SleepHolder(l, u) || (u == t && m == l.sleepMux && l.who != Some(t)))
    requires l'.who == l.who && (ScanHas(l') ==> ScanHas(l) || (l'.who == Some(t) && m == l.sleepMux))
    ensures OwnsIn(l, t, m) && LocksOk(l')
  {
    assert LockOk(l, t, m);
    forall k | k in l'.mutexes
      ensures MutexOk(l', k)
    {
      assert MutexOk(l, k) && WaitDropped(l, l', t, m, l.mutexes[k].owner, k);
    }
    forall u, k
      ensures LockOk(l', u, k)
    {
      assert LockOk(l, u, k) && WaitDropped(l, l', t, m, u, k);
    }
    forall u
      ensures HasMuxOk(l', u)
    {
      assert PcMeansSleep(l', u) && HasMuxOk(l, u);
    }
  }

  /** A gap that opens is the one of `t` below a scan that gives up m. */
  ghost predicate GapOnly(l: Locks, l': Locks, t: Tid, m: Mid, u: Tid, k: Mid) {
    AtGap(l', u, k) ==> AtGap(l, u, k) || (u == t && k == m)
  }

  ghost predicate Leaves(l: Locks, l': Locks, t: Tid, m: Mid) {
    && OwnsIn(l, t, m) && SameWaits(l, l') && !WaitsFor(l, t, m) && t !in l.mutexes[m].waiters
    && (forall u, k {:trigger GapOnly(l, l', t, m, u, k)} :: GapOnly(l, l', t, m, u, k))
    && (forall u {:trigger NoNewHolder(l, l', t, u)} :: NoNewHolder(l, l', t, u))
    && (ScanHas(l') ==> ScanHas(l) && l'.who == l.who && l'.who != Some(t))
  }

  lemma FreeKeeps(l: Locks, l': Locks, t: Tid, m: Mid)
    requires LocksOk(l) && Leaves(l, l', t, m)
    requires l'.mutexes == l.mutexes[m := Freed(l.mutexes[m], t)]
    ensures LocksOk(l')
  {
    assert MutexOk(l, m);
    forall k | k in l'.mutexes
      ensures MutexOk(l', k)
    {
      assert MutexOk(l, k) && SameWait(l, l', l.mutexes[k].owner, k);
    }
    forall u, k
      ensures LockOk(l', u, k)
    {
      assert LockOk(l, u, k) && SameWait(l, l', u, k) && GapOnly(l, l', t, m, u, k);
    }
    forall u
      ensures HasMuxOk(l', u)
    {
      assert NoNewHolder(l, l', t, u) && HasMuxOk(l, u);
    }
  }

  /** The first waiter becomes the owner. */
  lemma HandOffKeeps(l: Locks, l': Locks, t: Tid, m: Mid)
    requires LocksOk(l) && Leaves(l, l', t, m)
    requires l.mutexes[m].waiters != [] && NoDup(l.mutexes[m].waiters)
    requires l'.mutexes == l.mutexes[m := HandedOff(l.mutexes[m], t)]
    ensures LocksOk(l')
  {
    var x := l.mutexes[m];
    var w := x.waiters[0];
    FrontOff(x.waiters);
    assert MutexOk(l, m) && LockOk(l, w, m);
    forall k | k in l'.mutexes
      ensures MutexOk(l', k)
    {
      assert MutexOk(l, k) && SameWait(l, l', l.mutexes[k].owner, k) && SameWait(l, l', w, k);
    }
    forall u, k
      ensures LockOk(l', u, k)
    {
      assert LockOk(l, u, k) && SameWait(l, l', u, k) && GapOnly(l, l', t, m, u, k);
    }
    forall u
      ensures HasMuxOk(l', u)
    {
      assert NoNewHolder(l, l', t, u) && HasMuxOk(l, u);
    }
  }
}
