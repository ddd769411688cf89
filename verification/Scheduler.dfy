/** The scheduler, the kernel mutex and sleep as one machine (p3/kern/scheduler.c,
    p3/kern/lib_thread_management/{mutex,sleep,make_runnable,deschedule,yield}.c).

    A step is what runs with interrupts disabled, or code between two such stretches that no other
    thread can tell from one.  Only the running thread steps; a tick may come before any step.  The
    fields of a thread control block are maps over thread ids. */
module Scheduler {
  import opened Seqs

  type Tid = nat
  type Mid = nat

  const UINT_MAX: nat := 0xFFFF_FFFF
  const WAIT_TICKS: nat := 2

  datatype Status = Uninitialized | Runnable | Running | Descheduled | Blocked | Dead

  /** Where a thread is inside mutex_lock, mutex_unlock or sleep. */
  datatype Pc =
    | Idle
    | LockGap(m: Mid, toSleep: bool)    // saw m owned, interrupts are on again
    | LockWait(m: Mid, toSleep: bool)   // gave up the processor to wait for m
    | Waking(u: Tid)                    // took u off a mutex queue, has yet to make it runnable
    | SleepHasMux                       // in sleep, holds sleep_mux

  /** `enq`, `granted` and `inside` are history: who was put on the queue, who was taken off it, and
      who is between the return of mutex_lock and mutex_unlock. */
  datatype Mutex = Mutex(owned: bool, owner: Tid, waiters: seq<Tid>,
                         enq: seq<Tid>, granted: seq<Tid>, inside: set<Tid>)

  datatype Phase = ScanGap | ScanWait | ScanLoop | ScanWake(u: Tid) | ScanHand(u: Tid) | ScanDone

  /** sleep_on_tick past its tests, run by `who` on top of whatever tick `now` interrupted; it exists
      while handling_sleep_queue is 1.  `rest` is the part of the sleep queue from `curr` on.  History:
      the queue and the dates when sleep_mux was locked, the threads passed, and whether a date up to
      `now` was stored between the reset of the earliest date and the lock. */
  datatype Scan = Scan(who: Tid, now: nat, phase: Phase, rest: seq<Tid>,
                       start: seq<Tid>, dates: map<Tid, nat>,
                       past: seq<Tid>, woken: seq<Tid>, kept: seq<Tid>, low: bool)

  /** `parked` threads are BLOCKED on lists that use other links (wait, readline).  `picks` counts
      the calls of get_next_run. */
  datatype State = State(
    running: Tid, runq: seq<Tid>,
    status: map<Tid, Status>, pc: map<Tid, Pc>, expiry: map<Tid, nat>,
    mutexes: map<Mid, Mutex>, sleepMux: Mid, sleepq: seq<Tid>, parked: set<Tid>,
    ticks: nat, earliest: nat, scan: Option<Scan>,
    picks: nat)

  /** Broken: an affirm about the scheduler's own data fails.  The others are panics a caller can cause. */
  datatype Reason = Deadlock | Reacquired | NotOwner | NoMutex | TooLong | BadStatus | Broken

  datatype Outcome = Step(s: State) | Disabled | Panic(why: Reason)

  datatype Callback =
    | NoCallback
    | StoreInMutex(m: Mid)
    | StoreAsleep
    | StoreParked(m: Mid)               // store_waiting_thread
    | UnlockMux(m: Mid)                 // call_back_mutex_unlock
    | AssignChild(m: Mid, u: Tid)       // assign_child_task_to_parent_thread

  function WithStatus(s: State, t: Tid, st: Status): State {
    s.(status := s.status[t := st])
  }

  function WithPc(s: State, t: Tid, pc: Pc): State {
    s.(pc := s.pc[t := pc])
  }

  function WithMutex(s: State, m: Mid, x: Mutex): State {
    s.(mutexes := s.mutexes[m := x])
  }

  function Min(a: nat, b: nat): nat {
    if a < b then a else b
  }

  // ------------------------------------------------------------------ scheduler.c

  function AddToRun(s: State, t: Tid): State {
    WithStatus(s, t, Runnable).(runq := s.runq + [t])
  }

  /** swap_running_thread */
  function Swap(s: State, u: Tid): Outcome
    requires u in s.status
  {
    if u == s.running then
      if s.status[u] == Runnable then Step(s) else Panic(Broken)
    else Step(WithStatus(s, u, Running).(running := u))
  }

  /** get_next_run, then swap to its result. */
  function Dispatch(s: State): Outcome {
    if s.runq == [] then Panic(Deadlock)
    else if s.runq[0] !in s.status || s.status[s.runq[0]] != Runnable then Panic(Broken)
    else Swap(s.(runq := s.runq[1..], picks := s.picks + 1), s.runq[0])
  }

  /** Q_IN_SOME_QUEUE: a member of a queue of at least two on the scheduler's link. */
  predicate InSomeQueue(s: State, t: Tid) {
    || (t in s.runq && |s.runq| >= 2)
    || (t in s.sleepq && |s.sleepq| >= 2)
    || (exists m :: m in s.mutexes && t in s.mutexes[m].waiters && |s.mutexes[m].waiters| >= 2)
  }

  /** Swap to a thread the caller chose. */
  function DispatchTo(s: State, u: Tid): Outcome
    requires u in s.status
  {
    if !InSomeQueue(s, u) then Swap(s, u)
    else if u !in s.runq then Panic(Broken)
    else Swap(s.(runq := Without(s.runq, u)), u)
  }

  /** The running thread's new status, and the queue or callback that goes with it. */
  function StoreRunning(s: State, store: Status, cb: Callback): Outcome {
    var s1 := WithStatus(s, s.running, store);
    if store.Runnable? then Step(AddToRun(s1, s.running)) else RunCallback(s1, cb)
  }

  /** The swap at the end of a yield. */
  function PickNext(s: State, target: Option<Tid>): Outcome {
    if target == None then Dispatch(s)
    else if target.value !in s.status then Panic(Broken)
    else DispatchTo(s, target.value)
  }

  function YieldExecution(s: State, store: Status, target: Option<Tid>, cb: Callback): Outcome
    requires target.Some? ==> target.value in s.status
  {
    if store.Running? || store.Uninitialized? then Panic(BadStatus)
    else if target.Some? && !s.status[target.value].Runnable? && !s.status[target.value].Running? then Step(s)
    else
      var o := StoreRunning(s, store, cb);
      if o.Step? then PickNext(o.s, target) else o
  }

  /** make_thread_runnable_helper */
  function MakeThreadRunnable(s: State, u: Tid, switchSafe: bool): Outcome {
    if u !in s.status then Panic(Broken)
    else if s.status[u].Runnable? || s.status[u].Running? then Step(s)
    else if s.status[u].Uninitialized? || switchSafe then Step(AddToRun(s, u))
    else Swap(AddToRun(s, s.running), u)
  }

  // ------------------------------------------------------------------ mutex.c

  function Taken(x: Mutex, t: Tid): Mutex {
    x.(owned := true, owner := t, inside := x.inside + {t})
  }

  /** Take the first waiter off the queue and make it the owner; `t` leaves. */
  function HandedOff(x: Mutex, t: Tid): Mutex
    requires x.waiters != []
  {
    x.(waiters := x.waiters[1..], owner := x.waiters[0], granted := x.granted + [x.waiters[0]], inside := x.inside - {t})
  }

  function Freed(x: Mutex, t: Tid): Mutex {
    x.(owned := false, inside := x.inside - {t})
  }

  /** mutex_lock up to the point where it holds the lock or turns interrupts on again without it. */
  function LockTry(s: State, m: Mid, won: Pc, lost: Pc): Outcome {
    if m !in s.mutexes then Panic(NoMutex)
    else
      var x := s.mutexes[m];
      if x.owned && x.owner == s.running then Panic(Reacquired)
      else if x.owned then Step(WithPc(s, s.running, lost))
      else Step(WithPc(WithMutex(s, m, Taken(x, s.running)), s.running, won))
  }

  /** store_tcb_in_mutex_queue, as the callback of the yield. */
  function Enqueued(s: State, m: Mid): State
    requires m in s.mutexes
  {
    var x := s.mutexes[m];
    WithMutex(s, m, x.(waiters := x.waiters + [s.running], enq := x.enq + [s.running]))
  }

  predicate Owns(s: State, m: Mid) {
    m in s.mutexes && s.mutexes[m].owned && s.mutexes[m].owner == s.running
  }

  /** switch_safe_mutex_unlock */
  function SafeUnlock(s: State, m: Mid): Outcome {
    if !Owns(s, m) then Panic(NotOwner)
    else
      var x := s.mutexes[m];
      if x.waiters == [] then Step(WithMutex(s, m, Freed(x, s.running)))
      else MakeThreadRunnable(WithMutex(s, m, HandedOff(x, s.running)), x.waiters[0], true)
  }

  /** mutex_unlock up to the point where interrupts are on and the next owner has to be woken. */
  function Unlock(s: State, m: Mid): Outcome {
    if !Owns(s, m) then Panic(NotOwner)
    else
      var x := s.mutexes[m];
      if x.waiters == [] then Step(WithMutex(s, m, Freed(x, s.running)))
      else Step(WithPc(WithMutex(s, m, HandedOff(x, s.running)), s.running, Waking(x.waiters[0])))
  }

  // ------------------------------------------------------------------ sleep.c

  /** store_tcb_in_sleep_queue before it unlocks. */
  function StoredAsleep(s: State): State
    requires s.running in s.expiry
  {
    var e := s.expiry[s.running];
    var early := s.scan.Some? && (s.scan.value.phase.ScanGap? || s.scan.value.phase.ScanWait?)
                 && e <= s.scan.value.now;
    s.(sleepq := s.sleepq + [s.running],
       earliest := Min(s.earliest, e),
       scan := if early then Some(s.scan.value.(low := true)) else s.scan)
  }

  function RunCallback(s: State, cb: Callback): Outcome {
    match cb
    case NoCallback => Step(s)
    case StoreInMutex(m) => if m !in s.mutexes then Panic(NoMutex) else Step(Enqueued(s, m))
    case StoreAsleep =>
      if s.running !in s.expiry then Panic(Broken) else SafeUnlock(StoredAsleep(s), s.sleepMux)
    case StoreParked(m) => SafeUnlock(s.(parked := s.parked + {s.running}), m)
    case UnlockMux(m) => SafeUnlock(s, m)
    case AssignChild(m, u) => Assign(s, m, u)
  }

  /** assign_child_task_to_parent_thread, as far as the scheduler sees it. */
  function Assign(s: State, m: Mid, u: Tid): Outcome {
    if u !in s.parked || u !in s.status || s.status[u] != Blocked || InSomeQueue(s, u) then Panic(BadStatus)
    else
      var o := SafeUnlock(s.(parked := s.parked - {u}), m);
      if o.Step? then MakeThreadRunnable(o.s, u, true) else o
  }

  /** scheduler_on_tick */
  function Preempt(s: State): Outcome {
    Dispatch(AddToRun(s, s.running))
  }

  function BeginScan(s: State): Scan {
    Scan(s.running, s.ticks, ScanLoop, s.sleepq, s.sleepq, s.expiry, [], [], [], false)
  }

  /** sleep_on_tick after its tests: reset the date, try the lock. */
  function StartScan(s: State): Outcome {
    var s1 := s.(earliest := UINT_MAX);
    if s.sleepMux !in s.mutexes then Panic(NoMutex)
    else
      var x := s.mutexes[s.sleepMux];
      if x.owned && x.owner == s.running then Panic(Reacquired)
      else if x.owned then Step(s1.(scan := Some(BeginScan(s).(phase := ScanGap))))
      else Step(WithMutex(s1, s.sleepMux, Taken(x, s.running)).(scan := Some(BeginScan(s))))
  }

  /** timer_int_handler and tick.  A tick that does not scan goes on to the scheduler at once. */
  function Tick(s: State): Outcome {
    var s1 := s.(ticks := s.ticks + 1);
    if s1.ticks >= UINT_MAX then Panic(TooLong)
    else if s.scan == None && s1.ticks >= s.earliest then StartScan(s1)
    else if s1.ticks % WAIT_TICKS == 0 then Preempt(s1)
    else Step(s1)
  }

  function WithScan(s: State, c: Scan): State {
    s.(scan := Some(c))
  }

  /** One turn of the loop of sleep_on_tick. */
  function ScanOne(s: State, c: Scan): Outcome
    requires c.rest != []
  {
    var curr := c.rest[0];
    if curr !in s.sleepq || curr !in s.expiry then Panic(Broken)
    else
      var c1 := c.(rest := c.rest[1..], past := c.past + [curr]);
      if s.expiry[curr] <= c.now then
        Step(WithScan(s.(sleepq := Without(s.sleepq, curr)), c1.(woken := c.woken + [curr], phase := ScanWake(curr))))
      else
        Step(WithScan(s.(earliest := Min(s.earliest, s.expiry[curr])), c1.(kept := c.kept + [curr])))
  }

  /** mutex_unlock of sleep_mux at the end of the scan. */
  function ScanUnlock(s: State, c: Scan): Outcome {
    if !Owns(s, s.sleepMux) then Panic(NotOwner)
    else
      var x := s.mutexes[s.sleepMux];
      if x.waiters == [] then Step(WithScan(WithMutex(s, s.sleepMux, Freed(x, s.running)), c.(phase := ScanDone)))
      else Step(WithScan(WithMutex(s, s.sleepMux, HandedOff(x, s.running)), c.(phase := ScanHand(x.waiters[0]))))
  }

  function ScanResume(s: State, c: Scan): Outcome {
    if !Owns(s, s.sleepMux) then Panic(Broken)
    else
      var x := s.mutexes[s.sleepMux];
      Step(WithScan(WithMutex(s, s.sleepMux, x.(inside := x.inside + {s.running})),
                    c.(phase := ScanLoop, rest := s.sleepq, start := s.sleepq, dates := s.expiry)))
  }

  function ScanStep(s: State, c: Scan): Outcome {
    match c.phase
    case ScanGap =>
      YieldExecution(WithScan(s, c.(phase := ScanWait)), Blocked, None, StoreInMutex(s.sleepMux))
    case ScanWait => ScanResume(s, c)
    case ScanLoop => if c.rest == [] then ScanUnlock(s, c) else ScanOne(s, c)
    case ScanWake(u) => MakeThreadRunnable(WithScan(s, c.(phase := ScanLoop)), u, false)
    case ScanHand(u) => MakeThreadRunnable(WithScan(s, c.(phase := ScanDone)), u, false)
    case ScanDone => Step(s.(scan := None))
  }

  // ------------------------------------------------------------------ the machine

  /** What an idle thread can ask for; Vanish is the last act of a thread, with or without the mutex
      of its parent and a thread of the parent to wake. */
  datatype Call =
    | Yield(target: Option<Tid>)
    | Deschedule
    | MakeRunnable(u: Tid)
    | Create(u: Tid)
    | Start(u: Tid)
    | Lock(m: Mid)
    | Unlocks(m: Mid)
    | Sleep(k: int)
    | Wait(m: Mid)
    | Vanish(cb: Callback)

  datatype Action = Calls(call: Call) | Goes | Ticks | Preempts

  /** The sum of two uint32_t. */
  function WakeDate(ticks: nat, k: int): nat {
    (ticks + k) % (UINT_MAX + 1)
  }

  function DoSleep(s: State, k: int): Outcome {
    if k <= 0 then Step(s)
    else
      LockTry(s.(expiry := s.expiry[s.running := WakeDate(s.ticks, k)]), s.sleepMux,
              SleepHasMux, LockGap(s.sleepMux, true))
  }

  function DoCall(s: State, call: Call): Outcome {
    match call
    case Yield(target) =>
      if target.Some? && target.value !in s.status then Step(s)
      else YieldExecution(s, Runnable, target, NoCallback)
    case Deschedule => YieldExecution(s, Descheduled, None, NoCallback)
    case MakeRunnable(u) =>
      if u !in s.status || !s.status[u].Descheduled? then Step(s) else MakeThreadRunnable(s, u, false)
    case Create(u) =>
      if u in s.status then Disabled
      else Step(s.(status := s.status[u := Uninitialized], pc := s.pc[u := Idle], expiry := s.expiry[u := 0]))
    case Start(u) =>
      if u !in s.status || !s.status[u].Uninitialized? then Disabled else MakeThreadRunnable(s, u, false)
    case Lock(m) => LockTry(s, m, Idle, LockGap(m, false))
    case Unlocks(m) => Unlock(s, m)
    case Sleep(k) => DoSleep(s, k)
    case Wait(m) => YieldExecution(s, Blocked, None, StoreParked(m))
    case Vanish(cb) =>
      if cb.NoCallback? || cb.UnlockMux? || cb.AssignChild? then YieldExecution(s, Dead, None, cb) else Disabled
  }

  /** mutex_lock after its yield. */
  function LockReturn(s: State, m: Mid, toSleep: bool): Outcome {
    if !Owns(s, m) then Panic(Broken)
    else
      var x := s.mutexes[m];
      Step(WithPc(WithMutex(s, m, x.(inside := x.inside + {s.running})), s.running,
                  if toSleep then SleepHasMux else Idle))
  }

  function GoStep(s: State, pc: Pc): Outcome {
    match pc
    case Idle => Disabled
    case LockGap(m, toSleep) =>
      YieldExecution(WithPc(s, s.running, LockWait(m, toSleep)), Blocked, None, StoreInMutex(m))
    case LockWait(m, toSleep) => LockReturn(s, m, toSleep)
    case Waking(u) => MakeThreadRunnable(WithPc(s, s.running, Idle), u, false)
    case SleepHasMux => YieldExecution(WithPc(s, s.running, Idle), Blocked, None, StoreAsleep)
  }

  predicate Scanning(s: State) {
    s.scan.Some? && s.scan.value.who == s.running
  }

  function Next(s: State, a: Action): Outcome {
    if s.running !in s.pc then Panic(Broken)
    else
      match a
      case Ticks => Tick(s)
      case Preempts => Preempt(s)
      case Goes => if Scanning(s) then ScanStep(s, s.scan.value) else GoStep(s, s.pc[s.running])
      case Calls(call) => if Scanning(s) || s.pc[s.running] != Idle then Disabled else DoCall(s, call)
  }

  /** The run up to and including `acts`; disabled actions change nothing, a panic ends it. */
  function Run(s: State, acts: seq<Action>): Outcome
    decreases |acts|
  {
    if acts == [] then Step(s)
    else
      match Next(s, acts[0])
      case Step(s') => Run(s', acts[1..])
      case Disabled => Run(s, acts[1..])
      case Panic(why) => Panic(why)
  }

  function FreeMutex(): Mutex {
    Mutex(false, 0, [], [], [], {})
  }

  /** One running thread; every mutex free; nobody asleep. */
  function Initial(t: Tid, ms: set<Mid>, sleepMux: Mid): State {
    State(t, [], map[t := Running], map[t := Idle], map[t := 0],
          (map m | m in ms :: FreeMutex())[sleepMux := FreeMutex()], sleepMux, [], {}, 0, UINT_MAX, None, 0)
  }
}
