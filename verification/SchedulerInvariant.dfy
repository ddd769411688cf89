/** The invariant of the scheduler, the kernel mutex and sleep. */
module SchedulerInvariant {
  import opened Seqs
  import opened Scheduler

  /** Where a thread is.  A state is well formed when one map gives every thread its only place. */
  datatype Home = Runs | Queued | OnMutex(m: Mid) | Asleep | Parked | Carried(who: Tid) | CarriedByScan | Off

  type Homes = map<Tid, Home>

  // ------------------------------------------------------------------ one link, one queue

  /** The thread a scan took off a queue and has yet to make runnable. */
  ghost function ScanCarries(s: State): Option<Tid> {
    if s.scan.Some? && s.scan.value.phase.ScanWake? then Some(s.scan.value.phase.u)
    else if s.scan.Some? && s.scan.value.phase.ScanHand? then Some(s.scan.value.phase.u)
    else None
  }

  /** `hole` is a thread in the middle of a step, on no queue. */
  ghost predicate HomeOk(s: State, h: Homes, hole: Option<Tid>, t: Tid)
    requires t in s.status && t in h
  {
    match h[t]
    case Runs => t == s.running && (s.status[t] == Running || s.status[t] == Runnable)
    case Queued => t in s.runq && s.status[t] == Runnable
    case OnMutex(m) => m in s.mutexes && t in s.mutexes[m].waiters && s.status[t] == Blocked
    case Asleep => t in s.sleepq && s.status[t] == Blocked
    case Parked => t in s.parked && s.status[t] == Blocked
    case Carried(x) => x in s.pc && s.pc[x] == Waking(t) && s.status[t] == Blocked
    case CarriedByScan => ScanCarries(s) == Some(t) && s.status[t] == Blocked
    case Off => s.status[t].Descheduled? || s.status[t].Dead? || s.status[t].Uninitialized? || hole == Some(t)
  }

  ghost predicate ListsOk(s: State, h: Homes, t: Tid) {
    && (t in s.runq ==> t in h && h[t] == Queued)
    && (t in s.sleepq ==> t in h && h[t] == Asleep)
    && (t in s.parked ==> t in h && h[t] == Parked)
  }

  ghost predicate WaitersOk(s: State, h: Homes, m: Mid, t: Tid) {
    m in s.mutexes && t in s.mutexes[m].waiters ==> t in h && h[t] == OnMutex(m)
  }

  ghost predicate CarryOk(s: State, h: Homes, x: Tid) {
    x in s.pc && s.pc[x].Waking? ==> s.pc[x].u in h && h[s.pc[x].u] == Carried(x)
  }

  ghost predicate NoDupAt(s: State, m: Mid) {
    m in s.mutexes ==> NoDup(s.mutexes[m].waiters)
  }

  ghost predicate Keyed(s: State, h: Homes) {
    && h.Keys == s.status.Keys && s.pc.Keys == s.status.Keys && s.expiry.Keys == s.status.Keys
    && s.running in s.status && s.sleepMux in s.mutexes
  }

  /** Everything but that the running thread is on no queue, which a step breaks on its way. */
  ghost predicate QueuesOk(s: State, h: Homes, hole: Option<Tid>) {
    && Keyed(s, h)
    && NoDup(s.runq) && NoDup(s.sleepq)
    && (forall m {:trigger NoDupAt(s, m)} :: NoDupAt(s, m))
    && (forall t {:trigger HomeOk(s, h, hole, t)} :: t in s.status ==> HomeOk(s, h, hole, t))
    && (forall t {:trigger ListsOk(s, h, t)} :: ListsOk(s, h, t))
    && (forall m, t {:trigger WaitersOk(s, h, m, t)} :: WaitersOk(s, h, m, t))
    && (forall x {:trigger CarryOk(s, h, x)} :: CarryOk(s, h, x))
    && (ScanCarries(s).Some? ==> ScanCarries(s).value in h && h[ScanCarries(s).value] == CarriedByScan)
  }

  ghost predicate OneQueue(s: State, h: Homes) {
    QueuesOk(s, h, None) && h[s.running] == Runs
  }

  // ------------------------------------------------------------------ the mutexes

  /** What the mutexes depend on. */
  datatype Locks = Locks(mutexes: map<Mid, Mutex>, pc: map<Tid, Pc>, sleepMux: Mid, who: Option<Tid>, phase: Phase)

  ghost function LocksOf(s: State): Locks {
    Locks(s.mutexes, s.pc, s.sleepMux,
          if s.scan.Some? then Some(s.scan.value.who) else None,
          if s.scan.Some? then s.scan.value.phase else ScanDone)
  }

  /** t gave up the processor to wait for m and has not come back from mutex_lock. */
  ghost predicate WaitsFor(l: Locks, t: Tid, m: Mid) {
    || (t in l.pc && l.pc[t].LockWait? && l.pc[t].m == m)
    || (l.who == Some(t) && l.phase.ScanWait? && m == l.sleepMux)
  }

  ghost predicate ScanHas(l: Locks) {
    l.who.Some? && (l.phase.ScanLoop? || l.phase.ScanWake?)
  }

  /** t saw m owned and is about to block; a scan on top of it may hold m meanwhile. */
  ghost predicate AtGap(l: Locks, t: Tid, m: Mid) {
    || (t in l.pc && l.pc[t].LockGap? && l.pc[t].m == m
        && !(l.who == Some(t) && m == l.sleepMux && (ScanHas(l) || l.phase.ScanWait?)))
    || (l.who == Some(t) && l.phase.ScanGap? && m == l.sleepMux)
  }

  ghost predicate OwnsIn(l: Locks, t: Tid, m: Mid) {
    m in l.mutexes && l.mutexes[m].owned && l.mutexes[m].owner == t
  }

  ghost predicate LockOk(l: Locks, t: Tid, m: Mid) {
    && (WaitsFor(l, t, m) ==>
          m in l.mutexes && (t in l.mutexes[m].waiters || (OwnsIn(l, t, m) && l.mutexes[m].inside == {})))
    && (m in l.mutexes && t in l.mutexes[m].waiters ==> WaitsFor(l, t, m))
    && (AtGap(l, t, m) ==> m in l.mutexes && !OwnsIn(l, t, m) && !WaitsFor(l, t, m))
  }

  ghost predicate MutexOk(l: Locks, m: Mid)
    requires m in l.mutexes
  {
    var x := l.mutexes[m];
    && x.enq == x.granted + x.waiters
    && (!x.owned ==> x.inside == {})
    && (x.owned ==> x.inside == {x.owner} || (x.inside == {} && WaitsFor(l, x.owner, m) && x.owner !in x.waiters))
  }

  /** A thread in sleep means sleep_mux, and has it when it says so. */
  ghost predicate HasMuxOk(l: Locks, t: Tid) {
    && (t in l.pc && l.pc[t] == SleepHasMux ==>
          OwnsIn(l, t, l.sleepMux) && l.mutexes[l.sleepMux].inside == {t} && l.who != Some(t))
    && (t in l.pc && l.pc[t].LockGap? && l.pc[t].toSleep ==> l.pc[t].m == l.sleepMux)
    && (t in l.pc && l.pc[t].LockWait? && l.pc[t].toSleep ==> l.pc[t].m == l.sleepMux)
    && OneWait(l, t)
  }

  /** A scan that waits for sleep_mux does not sit on top of a wait for it. */
  ghost predicate OneWait(l: Locks, t: Tid) {
    l.who == Some(t) && l.phase.ScanWait? ==> !(t in l.pc && l.pc[t].LockWait? && l.pc[t].m == l.sleepMux)
  }

  ghost predicate LocksOk(l: Locks) {
    && l.sleepMux in l.mutexes
    && (forall m {:trigger MutexOk(l, m)} :: m in l.mutexes ==> MutexOk(l, m))
    && (forall t, m {:trigger LockOk(l, t, m)} :: LockOk(l, t, m))
    && (forall t {:trigger HasMuxOk(l, t)} :: HasMuxOk(l, t))
    && (ScanHas(l) ==> OwnsIn(l, l.who.value, l.sleepMux) && l.mutexes[l.sleepMux].inside == {l.who.value})
  }

  // ------------------------------------------------------------------ the sleep queue

  /** What the date index depends on. */
  datatype Sleepers = Sleepers(queue: seq<Tid>, expiry: map<Tid, nat>, earliest: nat, scan: Option<Scan>, ticks: nat)

  ghost function SleepersOf(s: State): Sleepers {
    Sleepers(s.sleepq, s.expiry, s.earliest, s.scan, s.ticks)
  }

  function UpTo(xs: seq<Tid>, dates: map<Tid, nat>, now: nat): seq<Tid> {
    if xs == [] then []
    else
      var n := |xs| - 1;
      UpTo(xs[..n], dates, now) + if xs[n] in dates && dates[xs[n]] <= now then [xs[n]] else []
  }

  function After(xs: seq<Tid>, dates: map<Tid, nat>, now: nat): seq<Tid> {
    if xs == [] then []
    else
      var n := |xs| - 1;
      After(xs[..n], dates, now) + if xs[n] in dates && dates[xs[n]] <= now then [] else [xs[n]]
  }

  ghost predicate Dated(z: Sleepers, t: Tid) {
    && (t in z.queue ==> t in z.expiry)
    && (t in z.expiry ==> z.expiry[t] <= UINT_MAX)
  }

  ghost predicate NotBefore(z: Sleepers, t: Tid) {
    t in z.queue && t in z.expiry ==> z.earliest <= z.expiry[t]
  }

  /** The earliest date is the date of some sleeper. */
  ghost predicate Attained(z: Sleepers) {
    exists t :: t in z.queue && t in z.expiry && z.expiry[t] == z.earliest
  }

  /** earliest_expiry_date is the minimum over the queue, UINT_MAX when it is empty. */
  ghost predicate Exact(z: Sleepers) {
    && (forall t {:trigger NotBefore(z, t)} :: NotBefore(z, t))
    && (z.earliest == UINT_MAX || Attained(z))
  }

  /** Before the scan has the lock, and while it goes through the queue. */
  ghost predicate Locking(c: Scan) {
    c.phase.ScanGap? || c.phase.ScanWait?
  }

  ghost predicate Looping(c: Scan) {
    c.phase.ScanLoop? || c.phase.ScanWake?
  }

  /** A date up to `now` was stored behind the scan's back exactly when the index says so. */
  ghost predicate LowOk(z: Sleepers, c: Scan) {
    && (c.low <==> z.earliest <= c.now)
    && (z.earliest == UINT_MAX || z.earliest <= c.now || Attained(z))
  }

  ghost predicate PassedOk(z: Sleepers, c: Scan, t: Tid) {
    && (t in c.kept ==> t in z.expiry && z.earliest <= z.expiry[t] && c.now < z.expiry[t])
    && (t in z.queue && t in z.expiry ==> t in c.dates && c.dates[t] == z.expiry[t])
  }

  ghost predicate LoopOk(z: Sleepers, c: Scan) {
    && z.queue == c.kept + c.rest
    && c.start == c.past + c.rest
    && c.woken == UpTo(c.past, c.dates, c.now)
    && c.kept == After(c.past, c.dates, c.now)
    && (forall t {:trigger PassedOk(z, c, t)} :: PassedOk(z, c, t))
  }

  ghost predicate ScanOk(z: Sleepers, c: Scan) {
    && c.now <= z.ticks && c.now < UINT_MAX
    && (Locking(c) ==> c.past == [] && c.woken == [] && c.kept == [])
    && (Locking(c) || Looping(c) ==> LowOk(z, c))
    && (Looping(c) ==> LoopOk(z, c))
    && (!Locking(c) && !Looping(c) ==> forall t {:trigger NotBefore(z, t)} :: NotBefore(z, t))
  }

  ghost predicate IndexOk(z: Sleepers) {
    && z.earliest <= UINT_MAX
    && (forall t {:trigger Dated(z, t)} :: Dated(z, t))
    && match z.scan
       case None => forall t {:trigger NotBefore(z, t)} :: NotBefore(z, t)
       case Some(c) => ScanOk(z, c)
  }

  ghost predicate InvAt(s: State, h: Homes) {
    OneQueue(s, h) && LocksOk(LocksOf(s)) && IndexOk(SleepersOf(s))
  }

  ghost predicate Inv(s: State) {
    exists h :: InvAt(s, h)
  }
}
