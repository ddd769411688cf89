/** fork, wait and vanish as a protocol between threads (p3/kern/lib_life_cycle/{fork,wait,vanish}.c).

    A step is a stretch of code no other thread can interleave with: taking a lock, the code under a
    lock, or a yield together with the callback it runs.  Locks are modelled by their owner only; the
    lock itself is verified in module Scheduler. */
module TaskLife {
  import opened Seqs

  type Pid = nat
  type Tid = nat

  datatype Status = Uninitialized | Ready | Blocked | Dead

  /** Where a thread is inside fork, wait or _vanish. */
  datatype Pc =
    | Idle
    // fork: control blocks built / own mutex held / linked, child thread not yet runnable
    | ForkWantMux(child: Pid, thread: Tid)
    | ForkHasMux(child: Pid, thread: Tid)
    | ForkLinked(child: Pid, thread: Tid)
    // wait
    | WaitWantMux | WaitHasMux | WaitBlocked | WaitCollect
    // _vanish up to the point where the task is off the list of live tasks
    | VanWantTree | VanWantMux | VanHasBoth
    // _vanish of the last thread afterwards
    | VanFree | VanWantInit | VanHasInit | VanWantTree2 | VanHasTree2
    | VanWantTarget(target: Pid, orphan: bool)
    | VanHasTarget(target: Pid, orphan: bool)
    | Gone

  /** The fields of pcb_t that the protocol uses, under the source's meaning. */
  datatype Task = Task(
    parent: Pid,
    listed: bool,             // on pcb_list, hence visible to find_pcb
    mux: Option<Tid>,         // owner of set_status_vanish_wait_mux
    active: seq<Pid>, numActive: int,
    vanished: seq<Pid>, numVanished: int,
    waiting: seq<Tid>, numWaiting: int,
    threads: seq<Tid>, numThreads: int,
    zombies: seq<Tid>, numZombies: int,
    totalThreads: int,
    last: Option<Tid>)

  datatype Thread = Thread(task: Pid, status: Status, pc: Pc, collected: Option<Pid>)

  /** `reaped` is a history: the pids freed by wait, in order. */
  datatype State = State(
    init: Pid,
    tasks: map<Pid, Task>,
    threads: map<Tid, Thread>,
    tree: Option<Tid>,        // owner of vanish_tree_mux
    nextPid: Pid,
    nextTid: Tid,
    reaped: seq<Pid>)

  /** Disabled: the thread cannot take this step now (a lock is held, it is blocked or it is dead).
      Panic: an affirm of the source fails, or freed memory is used. */
  datatype Outcome = Step(s: State) | Disabled | Panic

  datatype Syscall = Spawn | Fork | Wait | Vanish

  /** Call: an idle thread enters a system call.  Go: a thread inside one takes its next step. */
  datatype Action = Call(t: Tid, call: Syscall) | Go(t: Tid)

  // ------------------------------------------------------------------ steps

  function WithPc(s: State, t: Tid, pc: Pc): State
    requires t in s.threads
  {
    s.(threads := s.threads[t := s.threads[t].(pc := pc)])
  }

  function WithTask(s: State, p: Pid, k: Task): State {
    s.(tasks := s.tasks[p := k])
  }

  function NewTask(parent: Pid): Task {
    Task(parent, true, None, [], 0, [], 0, [], 0, [], 0, [], 0, 0, None)
  }

  /** create_tcb: a thread of `p`, not yet known to the scheduler. */
  function CreateTcb(s: State, p: Pid): State
    requires p in s.tasks
  {
    var k := s.tasks[p];
    WithTask(s, p, k.(threads := k.threads + [s.nextTid], numThreads := k.numThreads + 1,
                      totalThreads := k.totalThreads + 1))
    .(threads := s.threads[s.nextTid := Thread(p, Uninitialized, Idle, None)], nextTid := s.nextTid + 1)
  }

  function MakeRunnable(s: State, t: Tid): State
    requires t in s.threads
  {
    s.(threads := s.threads[t := s.threads[t].(status := Ready)])
  }

  predicate IsDead(s: State, t: Option<Tid>) {
    t.Some? && t.value in s.threads && s.threads[t.value].status == Dead
  }

  /** The link shared by active and vanished lists is in use. */
  predicate OnSomeList(s: State, c: Pid) {
    exists q :: q in s.tasks && (c in s.tasks[q].active || c in s.tasks[q].vanished)
  }

  /** Entering a system call.  Init is assumed never to vanish.  thread_fork takes and releases the
      task's mutex inside one step; fork builds both control blocks before it takes a lock. */
  function CallStep(s: State, t: Tid, call: Syscall): Outcome
    requires t in s.threads && s.threads[t].task in s.tasks
  {
    var p := s.threads[t].task;
    if s.threads[t].pc != Idle then Disabled
    else
      match call
      case Spawn =>
        if s.tasks[p].mux != None then Disabled
        else Step(MakeRunnable(CreateTcb(s, p), s.nextTid))
      case Fork =>
        if s.tasks[p].numThreads != 1 then Disabled
        else
          var c := s.nextPid;
          var s1 := CreateTcb(WithTask(s, c, NewTask(p)).(nextPid := c + 1), c);
          if t !in s1.threads then Panic else Step(WithPc(s1, t, ForkWantMux(c, s.nextTid)))
      case Wait => if s.threads[t].collected != None then Panic else Step(WithPc(s, t, WaitWantMux))
      case Vanish => if p == s.init then Disabled else Step(WithPc(s, t, VanWantTree))
  }

  /** mutex_lock on the mutex of task q, then continue at pc. */
  function TakeMux(s: State, t: Tid, q: Pid, pc: Pc): Outcome
    requires t in s.threads
  {
    if q !in s.tasks then Panic
    else if s.tasks[q].mux != None then Disabled
    else Step(WithPc(WithTask(s, q, s.tasks[q].(mux := Some(t))), t, pc))
  }

  function TakeTree(s: State, t: Tid, pc: Pc): Outcome
    requires t in s.threads
  {
    if s.tree != None then Disabled else Step(WithPc(s.(tree := Some(t)), t, pc))
  }

  /** fork.c:136-140 */
  function ForkLink(s: State, t: Tid, c: Pid, ct: Tid): Outcome
    requires t in s.threads && s.threads[t].task in s.tasks
  {
    var p := s.threads[t].task;
    var k := s.tasks[p];
    if c !in s.tasks || OnSomeList(s, c) then Panic
    else
      Step(WithPc(WithTask(s, p, k.(active := k.active + [c], numActive := k.numActive + 1, mux := None)),
                  t, ForkLinked(c, ct)))
  }

  /** fork.c:149-157 */
  function ForkFinish(s: State, t: Tid, ct: Tid): Outcome
    requires t in s.threads
  {
    if ct !in s.threads || s.threads[ct].status != Uninitialized then Panic
    else Step(WithPc(MakeRunnable(s, ct), t, Idle))
  }

  /** wait.c:48-76, with store_waiting_thread run by the yield. */
  function WaitRegion(s: State, t: Tid): Outcome
    requires t in s.threads && s.threads[t].task in s.tasks
  {
    var p := s.threads[t].task;
    var k := s.tasks[p];
    if k.vanished == [] then
      if k.numWaiting < k.numActive + k.numVanished then
        Step(WithTask(s, p, k.(waiting := k.waiting + [t], numWaiting := k.numWaiting + 1, mux := None))
             .(threads := s.threads[t := s.threads[t].(status := Blocked, pc := WaitBlocked)]))
      else
        Step(WithPc(WithTask(s, p, k.(mux := None)), t, Idle))
    else if k.vanished[0] !in s.tasks || !IsDead(s, s.tasks[k.vanished[0]].last) then Panic
    else
      Step(WithTask(s, p, k.(vanished := Without(k.vanished, k.vanished[0]), numVanished := k.numVanished - 1,
                             mux := None))
           .(threads := s.threads[t := s.threads[t].(pc := WaitCollect, collected := Some(k.vanished[0]))]))
  }

  /** What free_pcb_but_not_pd and free_tcb affirm of a task about to be freed. */
  predicate Freeable(s: State, c: Pid) {
    && c in s.tasks
    && s.tasks[c].vanished == [] && s.tasks[c].active == [] && s.tasks[c].waiting == []
    && s.tasks[c].threads == []
    && !OnSomeList(s, c)
    && IsDead(s, s.tasks[c].last)
    && s.tasks[c].zombies == [s.tasks[c].last.value]
    && s.threads[s.tasks[c].last.value].collected == None
  }

  /** wait.c:79-103: free the child's control block and its last thread. */
  function WaitFree(s: State, t: Tid): Outcome
    requires t in s.threads
  {
    var th := s.threads[t];
    if th.collected == None || !Freeable(s, th.collected.value) then Panic
    else
      var c := th.collected.value;
      var ts := s.threads[t := th.(pc := Idle, collected := None)];
      Step(s.(tasks := s.tasks - {c}, threads := ts - {s.tasks[c].last.value}, reaped := s.reaped + [c]))
  }

  /** vanish.c:161-190.  A thread that is not the last one unlocks and is dead in one step. */
  function LeaveTask(s: State, t: Tid): Outcome
    requires t in s.threads && s.threads[t].task in s.tasks
  {
    var p := s.threads[t].task;
    var k := s.tasks[p];
    var k1 := k.(threads := Without(k.threads, t), numThreads := k.numThreads - 1,
                 zombies := k.zombies + [t], numZombies := k.numZombies + 1, mux := None);
    if t !in k.threads || t in k.zombies || k1.numThreads + k1.numZombies != k1.totalThreads then Panic
    else if k1.numThreads > 0 then
      Step(WithTask(s, p, k1)
           .(tree := None, threads := s.threads[t := s.threads[t].(status := Dead, pc := Gone)]))
    else if !k.listed then Panic
    else
      Step(WithPc(WithTask(s, p, k1.(listed := false, active := [])).(tree := None), t, VanFree))
  }

  /** vanish.c:193-201: free the siblings, then decide whether children must go to init. */
  function FreeSiblings(s: State, t: Tid): Outcome
    requires t in s.threads && s.threads[t].task in s.tasks
  {
    var p := s.threads[t].task;
    var k := s.tasks[p];
    if k.threads != [] || k.numThreads != 0 || k.zombies == [] || k.zombies[|k.zombies| - 1] != t
       || |k.zombies| != k.numZombies
       || (exists z :: z in k.zombies && z != t && (!IsDead(s, Some(z)) || s.threads[z].collected != None)) then Panic
    else
      var s1 := WithTask(s, p, k.(last := Some(t), zombies := [t]))
                .(threads := map z | z in s.threads && (z == t || z !in k.zombies) :: s.threads[z]);
      Step(WithPc(s1, t, if k.vanished == [] then VanWantTree2 else VanWantInit))
  }

  /** assign_child_task_to_parent_thread: give child `c` to the first waiter of task `q`, unlock. */
  function AssignChild(s: State, c: Pid, q: Pid): Outcome
    requires q in s.tasks && s.tasks[q].waiting != []
  {
    var k := s.tasks[q];
    var w := k.waiting[0];
    if c !in s.tasks || !IsDead(s, s.tasks[c].last) || w !in s.threads || s.threads[w].status != Blocked then Panic
    else
      Step(WithTask(s, q, k.(waiting := Without(k.waiting, w), numWaiting := k.numWaiting - 1, mux := None))
           .(threads := s.threads[w := s.threads[w].(collected := Some(c), status := Ready, pc := WaitCollect)]))
  }

  /** vanish.c:203-228: append all vanished children to init's list and serve one waiter. */
  function HandOver(s: State, t: Tid): Outcome
    requires t in s.threads && s.threads[t].task in s.tasks
  {
    var p := s.threads[t].task;
    var k := s.tasks[p];
    if p == s.init || s.init !in s.tasks || k.vanished == [] then Panic
    else
      var i := s.tasks[s.init];
      var all := i.vanished + k.vanished;
      var total := i.numVanished + k.numVanished;
      var s1 := WithPc(WithTask(s, p, k.(vanished := [])), t, VanWantTree2);
      if i.waiting == [] then
        Step(WithTask(s1, s.init, i.(vanished := all, numVanished := total, mux := None)))
      else
        AssignChild(WithTask(s1, s.init, i.(vanished := Without(all, all[0]), numVanished := total - 1)),
                    all[0], s.init)
  }

  /** vanish.c:234-253: find_pcb of the parent; init when the parent is gone. */
  function FindTarget(s: State, t: Tid): Outcome
    requires t in s.threads && s.threads[t].task in s.tasks
  {
    var q := s.tasks[s.threads[t].task].parent;
    Step(WithPc(s, t, if q in s.tasks && s.tasks[q].listed then VanWantTarget(q, false)
                      else VanWantTarget(s.init, true)))
  }

  /** vanish.c:236-257: lock the target, release the tree, leave the parent's active list. */
  function EnterTarget(s: State, t: Tid, q: Pid, orphan: bool): Outcome
    requires t in s.threads
  {
    var p := s.threads[t].task;
    if q !in s.tasks then Panic
    else if s.tasks[q].mux != None then Disabled
    else if !orphan && (!s.tasks[q].listed || p !in s.tasks[q].active) then Panic
    else
      var k := s.tasks[q];
      var k1 := if orphan then k else k.(active := Without(k.active, p), numActive := k.numActive - 1);
      Step(WithPc(WithTask(s, q, k1.(mux := Some(t))).(tree := None), t, VanHasTarget(q, orphan)))
  }

  /** vanish.c:263-285: hand the dead task to a waiter or leave it on the list; die; unlock. */
  function Report(s: State, t: Tid, q: Pid): Outcome
    requires t in s.threads
  {
    var p := s.threads[t].task;
    if q !in s.tasks then Panic
    else
      var k := s.tasks[q];
      var s1 := s.(threads := s.threads[t := s.threads[t].(status := Dead, pc := Gone)]);
      if k.waiting != [] then AssignChild(s1, p, q)
      else if OnSomeList(s, p) then Panic
      else
        Step(WithTask(s1, q, k.(vanished := k.vanished + [p], numVanished := k.numVanished + 1, mux := None)))
  }

  function ForkStep(s: State, t: Tid): Outcome
    requires t in s.threads && s.threads[t].task in s.tasks
  {
    match s.threads[t].pc
    case ForkWantMux(c, ct) => TakeMux(s, t, s.threads[t].task, ForkHasMux(c, ct))
    case ForkHasMux(c, ct) => ForkLink(s, t, c, ct)
    case ForkLinked(c, ct) => ForkFinish(s, t, ct)
    case _ => Disabled
  }

  function WaitStep(s: State, t: Tid): Outcome
    requires t in s.threads && s.threads[t].task in s.tasks
  {
    match s.threads[t].pc
    case WaitWantMux => TakeMux(s, t, s.threads[t].task, WaitHasMux)
    case WaitHasMux => WaitRegion(s, t)
    case WaitCollect => WaitFree(s, t)
    case _ => Disabled
  }

  function VanishStep(s: State, t: Tid): Outcome
    requires t in s.threads && s.threads[t].task in s.tasks
  {
    match s.threads[t].pc
    case VanWantTree => TakeTree(s, t, VanWantMux)
    case VanWantMux => TakeMux(s, t, s.threads[t].task, VanHasBoth)
    case VanHasBoth => LeaveTask(s, t)
    case VanFree => FreeSiblings(s, t)
    case VanWantInit => TakeMux(s, t, s.init, VanHasInit)
    case VanHasInit => HandOver(s, t)
    case _ => Disabled
  }

  function ReportStep(s: State, t: Tid): Outcome
    requires t in s.threads && s.threads[t].task in s.tasks
  {
    match s.threads[t].pc
    case VanWantTree2 => TakeTree(s, t, VanHasTree2)
    case VanHasTree2 => FindTarget(s, t)
    case VanWantTarget(q, orphan) => EnterTarget(s, t, q, orphan)
    case VanHasTarget(q, _) => Report(s, t, q)
    case _ => Disabled
  }

  predicate InFork(pc: Pc) {
    pc.ForkWantMux? || pc.ForkHasMux? || pc.ForkLinked?
  }

  predicate InWait(pc: Pc) {
    pc.WaitWantMux? || pc.WaitHasMux? || pc.WaitCollect?
  }

  predicate InReport(pc: Pc) {
    pc.VanWantTree2? || pc.VanHasTree2? || pc.VanWantTarget? || pc.VanHasTarget?
  }

  function GoStep(s: State, t: Tid): Outcome
    requires t in s.threads && s.threads[t].task in s.tasks
  {
    var pc := s.threads[t].pc;
    if InFork(pc) then ForkStep(s, t)
    else if InWait(pc) then WaitStep(s, t)
    else if InReport(pc) then ReportStep(s, t)
    else VanishStep(s, t)
  }

  function Next(s: State, a: Action): Outcome {
    if a.t !in s.threads || s.threads[a.t].status != Ready then Disabled
    else if s.threads[a.t].task !in s.tasks then Panic
    else
      match a
      case Call(t, call) => CallStep(s, t, call)
      case Go(t) => GoStep(s, t)
  }

  /** A whole run; a disabled action changes nothing. */
  function Run(s: State, acts: seq<Action>): Outcome
    decreases |acts|
  {
    if acts == [] then Step(s)
    else
      match Next(s, acts[0])
      case Step(s') => Run(s', acts[1..])
      case Disabled => Run(s, acts[1..])
      case Panic => Panic
  }

  /** init alone, with one idle thread. */
  function Initial(init: Pid, t: Tid): State {
    State(init, map[init := NewTask(0).(threads := [t], numThreads := 1, totalThreads := 1)],
          map[t := Thread(init, Ready, Idle, None)], None, init + 1, t + 1, [])
  }
}
