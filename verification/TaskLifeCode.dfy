/** fork.c, wait.c and vanish.c as code over control blocks and linked lists.  Each method moves the model by one
    step of module TaskLife.  It gives the queue macros only what they ask for: a link that is on no list and not
    stale when it is inserted, a member of the list when it is removed.  An affirm of the source is an assert. */
module TaskLifeCode {
  import opened Seqs
  import opened IntrusiveQueue
  import opened NamedQueues
  import opened TaskLife
  import opened TaskLifeBlocks
  import opened TaskLifeHeap
  import Inv = TaskLifeInvariant
  import Theorems = TaskLifeTheorems

  /** Ran: the step was taken.  NotNow: it has to be tried again. */
  datatype Result = Ran | NotNow

  ghost predicate Follows(o: Outcome, r: Result, before: State, after: State) {
    match o
    case Step(s) => r == Ran && after == s
    case Disabled => r == NotNow && after == before
    case Panic => false
  }

  /** The thread that takes a step: it has a control block, and so has its task. */
  ghost predicate Acting(m: TaskManager, tcb: Tcb)
    reads m, m.footprint, m.children, m.children.heap, m.children.heap.queues, m.children.heap.elems
    reads m.tasks, m.tasks.heap, m.tasks.heap.queues, m.tasks.heap.elems
    reads m.members, m.members.heap, m.members.heap.queues, m.members.heap.elems
    reads m.waiters, m.waiters.heap, m.waiters.heap.queues, m.waiters.heap.elems, m.pcbs.Values, m.threads.Values
  {
    && m.Ready() && m.Mine(tcb) && m.Known(tcb.task) && tcb.tid in m.model.threads
    && m.model.threads[tcb.tid].task == tcb.task.pid
    && tcb.task.pid in m.model.tasks && m.model.threads[tcb.tid].status == Status.Ready
  }

  // ------------------------------------------------------------------ locks

  /** mutex_lock on a task's mutex, when it can be had at once */
  method LockTask(m: TaskManager, tcb: Tcb, b: Pcb, pc: Pc) returns (r: Result)
    requires Acting(m, tcb) && m.Known(b) && Clean(m.model.threads[tcb.tid].(pc := pc), m.children.stale)
    modifies m.footprint
    ensures m.Stays()
    ensures Follows(TakeMux(old(m.model), tcb.tid, b.pid, pc), r, old(m.model), m.model)
  {
    m.PcbIs(b);
    m.TcbIs(tcb);
    if b.mux != None {
      return NotNow;
    }
    m.SetMux(b, Some(tcb.tid));
    m.SetPc(tcb, pc);
    return Ran;
  }

  method LockTree(m: TaskManager, tcb: Tcb, pc: Pc) returns (r: Result)
    requires Acting(m, tcb) && Clean(m.model.threads[tcb.tid].(pc := pc), m.children.stale)
    modifies m.footprint
    ensures m.Stays() && Follows(TakeTree(old(m.model), tcb.tid, pc), r, old(m.model), m.model)
  {
    m.Basics();
    m.TcbIs(tcb);
    if m.tree != None {
      return NotNow;
    }
    m.SetTree(Some(tcb.tid));
    m.SetPc(tcb, pc);
    return Ran;
  }

  // ------------------------------------------------------------------ fork.c

  /** fork.c:136-140; `c` is the child's control block. */
  method LinkChild(m: TaskManager, tcb: Tcb, c: Pcb, ct: Tid)
    requires Acting(m, tcb) && m.Known(c) && c.pid !in m.children.stale && tcb.pc == ForkHasMux(c.pid, ct)
    requires ForkLink(m.model, tcb.tid, c.pid, ct).Step?
    modifies m.footprint
    ensures m.Stays() && m.model == ForkLink(old(m.model), tcb.tid, c.pid, ct).s
  {
    var b := tcb.task;
    m.TcbIs(tcb);
    m.CleanIs(tcb);
    m.ChildLink(c);
    m.ChildOn(c.pid);
    m.Push(b, Active, c.childLink);
    m.Count(b, Active, 1);
    m.SetMux(b, None);
    m.SetPc(tcb, ForkLinked(c.pid, ct));
  }

  /** fork.c:149-157 */
  method FinishFork(m: TaskManager, tcb: Tcb, child: Tcb)
    requires Acting(m, tcb) && m.Mine(child) && ForkFinish(m.model, tcb.tid, child.tid).Step?
    modifies m.footprint
    ensures m.Stays() && m.model == ForkFinish(old(m.model), tcb.tid, child.tid).s
  {
    m.TcbIs(child);
    m.CleanIs(child);
    m.CleanIs(tcb);
    m.SetThread(child, Status.Ready, child.pc);
    m.SetPc(tcb, Idle);
  }

  // ------------------------------------------------------------------ wait.c

  /** A thread that is not blocked in wait is on no list of waiting threads. */
  lemma NotWaiting(s: State, t: Tid)
    requires Theorems.Inv(s) && t in s.threads && s.threads[t].pc != WaitBlocked
    ensures forall p :: p in s.tasks ==> t !in s.tasks[p].waiting
  {
    var pl: Inv.Places :| Inv.InvAt(s, pl);
    forall p | p in s.tasks
      ensures t !in s.tasks[p].waiting
    {
      assert Inv.TaskOk(s, p) && Inv.MemberOk(s, p, t);
    }
  }

  /** store_waiting_thread, run by yield_execution once the thread is blocked. */
  method StoreWaiting(m: TaskManager, tcb: Tcb)
    requires Acting(m, tcb) && forall p :: p in m.model.tasks ==> tcb.tid !in m.model.tasks[p].waiting
    modifies m.footprint
    ensures m.Stays()
    ensures var s, k := old(m.model), old(m.model).tasks[tcb.task.pid];
            m.model == WithTask(s, tcb.task.pid, k.(waiting := k.waiting + [tcb.tid], numWaiting := k.numWaiting + 1, mux := None))
                       .(threads := s.threads[tcb.tid := s.threads[tcb.tid].(status := Blocked, pc := WaitBlocked)])
  {
    m.CleanIs(tcb);
    m.SetThread(tcb, Blocked, WaitBlocked);
    m.ThreadLinks(tcb);
    m.WaiterOff(tcb.tid);
    m.Push(tcb.task, WaitingThreads, tcb.waitLink);
    m.Count(tcb.task, WaitingThreads, 1);
    m.SetMux(tcb.task, None);
  }

  /** wait.c:48-76 */
  method Region(m: TaskManager, tcb: Tcb)
    requires Acting(m, tcb) && Theorems.Inv(m.model) && tcb.pc == WaitHasMux && WaitRegion(m.model, tcb.tid).Step?
    modifies m.footprint
    ensures m.Stays() && m.model == WaitRegion(old(m.model), tcb.tid).s
  {
    var b := tcb.task;
    m.PcbIs(b);
    m.TcbIs(tcb);
    var front := m.FrontOf(b, Vanished);
    if front != null {
      m.ChildIs(b, Vanished, front.pid);
      TakeChild(m, tcb, m.pcbs[front.pid]);
    } else if b.numWaiting < b.numActive + b.numVanished {
      NotWaiting(m.model, tcb.tid);
      StoreWaiting(m, tcb);
    } else {
      m.CleanIs(tcb);
      m.SetMux(b, None);
      m.SetPc(tcb, Idle);
    }
  }

  /** wait.c:66-76: the first vanished child is collected. */
  method TakeChild(m: TaskManager, tcb: Tcb, c: Pcb)
    requires Acting(m, tcb) && m.Known(c) && c.pid !in m.children.stale
    requires m.model.tasks[tcb.task.pid].vanished != [] && c.pid == m.model.tasks[tcb.task.pid].vanished[0]
    requires c.pid in m.model.tasks && IsDead(m.model, m.model.tasks[c.pid].last)
    modifies m.footprint
    ensures m.Stays()
    ensures var s, k := old(m.model), old(m.model).tasks[tcb.task.pid];
            m.model == WithTask(s, tcb.task.pid, k.(vanished := Without(k.vanished, c.pid), numVanished := k.numVanished - 1, mux := None))
                       .(threads := s.threads[tcb.tid := s.threads[tcb.tid].(pc := WaitCollect, collected := Some(c.pid))])
  {
    var b := tcb.task;
    m.CleanIs(tcb);
    LastIs(m, c);
    assert c.last.status == Dead;
    m.SetCollected(tcb, c);
    OffVanished(m, b, c);
    m.SetMux(b, None);
    m.SetPc(tcb, WaitCollect);
  }

  /** Q_REMOVE from the vanished children, and the counter */
  method OffVanished(m: TaskManager, b: Pcb, c: Pcb)
    requires m.Ready() && m.Known(b) && m.Known(c) && b.pid in m.model.tasks && c.pid in m.model.tasks[b.pid].vanished
    modifies m.footprint
    ensures m.Stays()
    ensures var k := old(m.model).tasks[b.pid];
            m.model == WithTask(old(m.model), b.pid, k.(vanished := Without(k.vanished, c.pid), numVanished := k.numVanished - 1))
  {
    m.ChildLink(c);
    m.Take(b, Vanished, c.childLink);
    m.Count(b, Vanished, -1);
  }

  lemma LastIs(m: TaskManager, c: Pcb)
    requires m.Ready() && m.Known(c) && c.pid in m.model.tasks && IsDead(m.model, m.model.tasks[c.pid].last)
    ensures c.last != null && m.Mine(c.last) && c.last.status == Dead && m.model.tasks[c.pid].last == Some(c.last.tid)
  {
    m.PcbIs(c);
    m.Basics();
    m.TcbIs(c.last);
  }

  /** A collected task has nothing left but its last thread, and is on no list. */
  lemma CorpseIs(m: TaskManager, tcb: Tcb, c: Pcb)
    requires Acting(m, tcb) && Theorems.Inv(m.model) && tcb.collected == c && WaitFree(m.model, tcb.tid).Step?
    ensures m.Known(c) && c.pid in m.model.tasks && c.last != null && m.Mine(c.last) && c.last != tcb
            && m.Bare(c, c.last)
    ensures !m.children.On(c.pid) && !m.waiters.On(c.last.tid) && c.pid !in m.children.stale
    ensures c.last.collected == null && c.last.status == Dead
  {
    m.Basics();
    m.TcbIs(tcb);
    m.CleanIs(tcb);
    m.PcbIs(c);
    m.TcbIs(c.last);
    m.ChildOn(c.pid);
    var pl: Inv.Places :| Inv.InvAt(m.model, pl);
    assert Inv.ThreadOk(m.model, tcb.tid) && Inv.CarriesOk(m.model, pl, tcb.tid) && Inv.PlaceOk(m.model, pl, c.pid);
    NotWaiting(m.model, c.last.tid);
    m.WaiterOff(c.last.tid);
  }

  /** What free_pcb_but_not_pd and free_tcb look at in the heap.  The last thread is still on its task's list; the
      affirm on its link does not see that, because it is alone there. */
  lemma FreeAffirms(m: TaskManager, c: Pcb)
    requires m.Ready() && m.Known(c) && c.last != null && m.Mine(c.last) && m.Bare(c, c.last)
    requires !m.children.On(c.pid) && !m.waiters.On(c.last.tid) && c.pid !in m.children.stale
    ensures c.vanished.front == c.active.front == c.waiting.front == c.threads.front == null
    ensures c.zombies.front == c.zombies.tail == c.last.threadLink
    ensures !c.childLink.InSomeQueue() && !c.last.waitLink.InSomeQueue() && !c.last.threadLink.InSomeQueue()
  {
    m.EndsOf(c, Active);
    m.EndsOf(c, Vanished);
    m.EndsOf(c, WaitingThreads);
    m.EndsOf(c, Threads);
    m.EndsOf(c, Zombies);
    m.ThreadLinks(c.last);
    m.ChildLink(c);
    m.LinkApart(m.children);
    m.LinkApart(m.members);
    m.LinkApart(m.waiters);
    m.children.NotSeen(c.pid);
    m.waiters.NotSeen(c.last.tid);
    AloneOnList(m, c);
    m.members.NotSeen(c.last.tid);
  }

  lemma AloneOnList(m: TaskManager, c: Pcb)
    requires m.Ready() && m.Known(c) && c.last != null && m.Bare(c, c.last)
    ensures forall q :: q in m.members.lists && c.last.tid in m.members.lists[q] ==> |m.members.lists[q]| == 1
  {
    m.HeadIs(c, Zombies);
    m.LinkApart(m.members);
    forall q | q in m.members.lists && c.last.tid in m.members.lists[q]
      ensures |m.members.lists[q]| == 1
    {
      m.members.OneQueue(c.zombies, q, c.last.tid);
    }
  }

  /** wait.c:79-103 with free_pcb_but_not_pd, whose affirms look at lists, links and the last thread */
  method Collect(m: TaskManager, tcb: Tcb)
    requires Acting(m, tcb) && Theorems.Inv(m.model) && tcb.pc == WaitCollect && WaitFree(m.model, tcb.tid).Step?
    modifies m.footprint
    ensures m.Ready() && m.footprint == old(m.footprint) && m.model == WaitFree(old(m.model), tcb.tid).s
  {
    m.Basics();
    m.TcbIs(tcb);
    m.CleanIs(tcb);
    var c := tcb.collected;
    CorpseIs(m, tcb, c);
    FreeAffirms(m, c);
    m.FreePcb(c, c.last);
    Collected(m, tcb);
  }

  /** wait.c:102: nothing is left to collect. */
  method Collected(m: TaskManager, tcb: Tcb)
    requires m.Ready() && m.Mine(tcb) && tcb.tid in m.model.threads && m.model.threads[tcb.tid].pc == WaitCollect
    modifies m.footprint
    ensures m.Stays()
    ensures var s := old(m.model);
            m.model == s.(threads := s.threads[tcb.tid := s.threads[tcb.tid].(pc := Idle, collected := None)])
  {
    m.SetCollected(tcb, null);
    m.SetPc(tcb, Idle);
  }

  // ------------------------------------------------------------------ vanish.c

  /** vanish.c:161-169: from the active threads to the vanished ones */
  method MoveToVanished(m: TaskManager, tcb: Tcb)
    requires Acting(m, tcb) && Theorems.Inv(m.model)
    requires tcb.tid in m.model.tasks[tcb.task.pid].threads && tcb.tid !in m.model.tasks[tcb.task.pid].zombies
    modifies m.footprint
    ensures m.Stays()
    ensures var s, k := old(m.model), old(m.model).tasks[tcb.task.pid];
            m.model == WithTask(s, tcb.task.pid, k.(threads := Without(k.threads, tcb.tid), numThreads := k.numThreads - 1,
                                                   zombies := k.zombies + [tcb.tid], numZombies := k.numZombies + 1))
  {
    var b := tcb.task;
    m.ThreadLinks(tcb);
    m.Take(b, Threads, tcb.threadLink);
    m.Count(b, Threads, -1);
    m.ThreadLinks(tcb);
    OneTaskOnly(old(m.model), tcb.tid);
    m.MemberOff(tcb.tid);
    m.Push(b, Zombies, tcb.threadLink);
    m.Count(b, Zombies, 1);
  }

  /** A thread is on the lists of its own task only, and on one of the two once. */
  lemma OneTaskOnly(s: State, t: Tid)
    requires Theorems.Inv(s) && t in s.threads
    ensures forall p :: p in s.tasks && p != s.threads[t].task ==> t !in s.tasks[p].threads && t !in s.tasks[p].zombies
    ensures s.threads[t].task in s.tasks && t !in Without(s.tasks[s.threads[t].task].threads, t)
  {
    var pl: Inv.Places :| Inv.InvAt(s, pl);
    assert Inv.ThreadOk(s, t) && Inv.TaskOk(s, s.threads[t].task);
    NoDupWithout(s.tasks[s.threads[t].task].threads, t);
    forall p | p in s.tasks && p != s.threads[t].task
      ensures t !in s.tasks[p].threads && t !in s.tasks[p].zombies
    {
      assert Inv.TaskOk(s, p) && Inv.MemberOk(s, p, t);
    }
  }

  /** vanish.c:161-190 */
  method Leave(m: TaskManager, tcb: Tcb)
    requires Acting(m, tcb) && Theorems.Inv(m.model) && tcb.pc == VanHasBoth && LeaveTask(m.model, tcb.tid).Step?
    modifies m.footprint
    ensures m.Remains() && m.model == LeaveTask(old(m.model), tcb.tid).s
  {
    var b := tcb.task;
    m.CleanIs(tcb);
    MoveToVanished(m, tcb);
    m.PcbIs(b);
    assert b.numThreads + b.numZombies == b.totalThreads;
    if b.numThreads > 0 {
      m.SetTree(None);
      m.SetMux(b, None);
      m.SetThread(tcb, Dead, Gone);
    } else {
      m.RemovePcb(b);
      ActiveUnused(m, old(m.model), b);
      m.ForgetActive(b);
      GoOnToFree(m, tcb);
    }
  }

  /** vanish.c:188-190 */
  method GoOnToFree(m: TaskManager, tcb: Tcb)
    requires Acting(m, tcb)
    modifies m.footprint
    ensures m.Stays()
    ensures var s := old(m.model);
            m.model == WithPc(WithTask(s, tcb.task.pid, s.tasks[tcb.task.pid].(mux := None)).(tree := None), tcb.tid, VanFree)
  {
    m.CleanIs(tcb);
    m.SetTree(None);
    m.SetMux(tcb.task, None);
    m.SetPc(tcb, VanFree);
  }

  /** No link of an active child is going to be used before it is initialised again. */
  lemma ActiveUnused(m: TaskManager, s: State, b: Pcb)
    requires m.Ready() && Theorems.Inv(s) && m.Known(b) && b.pid in s.tasks && s.tasks[b.pid].listed
    requires m.model.threads == s.threads && b.pid in m.model.tasks
             && m.model.tasks[b.pid].active == s.tasks[b.pid].active
    ensures AllClean(m.model.threads, m.children.stale + set c | c in m.model.tasks[b.pid].active)
  {
    assert m.Agrees(m.model);
    ghost var more := m.children.stale + set c | c in m.model.tasks[b.pid].active;
    forall t
      ensures CleanAt(m.model.threads, more, t)
    {
      assert CleanAt(m.model.threads, m.children.stale, t);
      if t in s.threads {
        CleanOfActive(s, b.pid, t);
      }
    }
  }

  lemma CleanOfActive(s: State, p: Pid, t: Tid)
    requires Theorems.Inv(s) && p in s.tasks && s.tasks[p].listed && t in s.threads
    ensures Clean(s.threads[t], set c | c in s.tasks[p].active)
  {
    var pl: Inv.Places :| Inv.InvAt(s, pl);
    assert Inv.ThreadOk(s, t) && Inv.PcOk(s, pl, t) && Inv.CarriesOk(s, pl, t);
    ghost var n := match s.threads[t].pc
      case ForkWantMux(c, _) => c
      case ForkHasMux(c, _) => c
      case _ => s.threads[t].task;
    assert Inv.ListsOk(s, pl, p, n);
    if s.threads[t].collected.Some? {
      assert Inv.ListsOk(s, pl, p, s.threads[t].collected.value);
    }
  }

  /** The state after the threads `freed` in front of `left` are gone. */
  function WithoutSiblings(s: State, p: Pid, freed: seq<Tid>, left: seq<Tid>): State
    requires p in s.tasks
  {
    WithTask(s, p, s.tasks[p].(zombies := left)).(threads := map z | z in s.threads && z !in freed :: s.threads[z])
  }

  /** The vanished threads of a task are on its list only. */
  ghost predicate OnlyHere(s: State, p: Pid)
    requires p in s.tasks
  {
    forall z, q :: z in s.tasks[p].zombies && q in s.tasks ==>
      z !in s.tasks[q].threads && z !in s.tasks[q].waiting && (q != p ==> z !in s.tasks[q].zombies)
  }

  /** A control block that free_tcb accepts. */
  predicate Freeable(hs: map<Tid, Thread>, z: Tid) {
    z in hs && hs[z].status == Dead && hs[z].collected == None
  }

  /** The vanished threads of a task other than t can be freed, and are on no other list. */
  ghost predicate SiblingsOk(s: State, p: Pid, t: Tid) {
    && p in s.tasks && NoDup(s.tasks[p].zombies) && OnlyHere(s, p)
    && forall z :: z in s.tasks[p].zombies && z != t ==> Freeable(s.threads, z)
  }

  /** The threads in front of `left` are gone. */
  ghost predicate FrontFreed(s: State, p: Pid, t: Tid, freed: seq<Tid>, left: seq<Tid>, now: State) {
    && p in s.tasks && s.tasks[p].zombies == freed + left && t !in freed
    && NoDup(left) && (forall z :: z in freed ==> z !in left)
    && now == WithoutSiblings(s, p, freed, left)
  }

  /** One more sibling gone. */
  lemma OneMoreGone(s: State, p: Pid, t: Tid, freed: seq<Tid>, left: seq<Tid>)
    requires SiblingsOk(s, p, t) && FrontFreed(s, p, t, freed, left, WithoutSiblings(s, p, freed, left))
             && left != [] && left[0] != t
    ensures FrontFreed(s, p, t, freed + [left[0]], left[1..], WithoutSiblings(s, p, freed + [left[0]], left[1..]))
    ensures var s1 := WithoutSiblings(s, p, freed, left);
            && SiblingsOk(s1, p, t) && Freeable(s1.threads, left[0])
            && WithoutSiblings(s1, p, [left[0]], left[1..]) == WithoutSiblings(s, p, freed + [left[0]], left[1..])
  {
    var s1 := WithoutSiblings(s, p, freed, left);
    assert forall z :: z in left ==> z in s.tasks[p].zombies;
    assert WithoutSiblings(s1, p, [left[0]], left[1..]).threads == WithoutSiblings(s, p, freed + [left[0]], left[1..]).threads;
  }

  /** The loop of free_sibling_tcb: walk vanished_threads_list from the front, freeing control blocks. */
  method FreeInFront(m: TaskManager, b: Pcb, tcb: Tcb) returns (removed: nat, ghost freed: seq<Tid>)
    requires m.Ready() && m.Known(b) && m.Mine(tcb) && SiblingsOk(m.model, b.pid, tcb.tid)
    requires tcb.tid in m.model.tasks[b.pid].zombies
    modifies m.footprint
    ensures m.Ready() && m.footprint == old(m.footprint) && m.pcbs == old(m.pcbs) && m.Mine(tcb)
    ensures b.pid in m.model.tasks && old(m.model).tasks[b.pid].zombies == freed + m.model.tasks[b.pid].zombies
    ensures |freed| == removed && tcb.tid !in freed
    ensures m.model.tasks[b.pid].zombies != [] && m.model.tasks[b.pid].zombies[0] == tcb.tid
    ensures m.model == WithoutSiblings(old(m.model), b.pid, freed, m.model.tasks[b.pid].zombies)
  {
    ghost var s, left := m.model, m.model.tasks[b.pid].zombies;
    removed, freed := 0, [];
    var curr := m.FrontOf(b, Zombies);
    NoneGone(s, b.pid);
    while curr != null && curr.pid != tcb.tid
      invariant m.Ready() && m.footprint == old(m.footprint) && m.pcbs == old(m.pcbs) && m.Mine(tcb)
      invariant |freed| == removed && FrontFreed(s, b.pid, tcb.tid, freed, left, m.model)
      invariant if left == [] then curr == null else curr != null && m.members.KnownElem(curr) && curr.pid == left[0]
      decreases |left|
    {
      FreeTurn(m, b, tcb, curr, s, freed, left);
      freed, left := freed + [left[0]], left[1..];
      removed := removed + 1;
      curr := m.FrontOf(b, Zombies);
    }
  }

  /** One turn of the loop. */
  method FreeTurn(m: TaskManager, b: Pcb, tcb: Tcb, curr: Elem, ghost s: State, ghost freed: seq<Tid>, ghost left: seq<Tid>)
    requires m.Ready() && m.Known(b) && m.Mine(tcb) && SiblingsOk(s, b.pid, tcb.tid)
    requires FrontFreed(s, b.pid, tcb.tid, freed, left, m.model) && left != [] && left[0] == curr.pid != tcb.tid
    modifies m.footprint
    ensures m.Ready() && m.footprint == old(m.footprint) && m.pcbs == old(m.pcbs) && m.Mine(tcb)
    ensures FrontFreed(s, b.pid, tcb.tid, freed + [left[0]], left[1..], m.model) && b.pid in m.model.tasks
    ensures m.model.tasks[b.pid].zombies == left[1..]
  {
    OneMoreGone(s, b.pid, tcb.tid, freed, left);
    m.ThreadIs(b, Zombies, curr.pid);
    FreeSibling(m, b, m.threads[curr.pid]);
  }

  lemma NoneGone(s: State, p: Pid)
    requires p in s.tasks
    ensures WithoutSiblings(s, p, [], s.tasks[p].zombies) == s
  {
    assert s.tasks[p := s.tasks[p].(zombies := s.tasks[p].zombies)] == s.tasks;
    assert (map z | z in s.threads && z !in [] :: s.threads[z]) == s.threads;
  }

  /** One turn: the front of the list is taken off and freed. */
  method FreeSibling(m: TaskManager, b: Pcb, curr: Tcb)
    requires m.Ready() && m.Known(b) && m.Mine(curr) && b.pid in m.model.tasks && OnlyHere(m.model, b.pid)
    requires var zs := m.model.tasks[b.pid].zombies; zs != [] && zs[0] == curr.tid && NoDup(zs)
    requires Freeable(m.model.threads, curr.tid)
    modifies m.footprint
    ensures m.Ready() && m.footprint == old(m.footprint) && m.pcbs == old(m.pcbs)
            && m.threads == old(m.threads) - {curr.tid}
    ensures b.pid in m.model.tasks
    ensures m.model == WithoutSiblings(old(m.model), b.pid, [curr.tid], old(m.model).tasks[b.pid].zombies[1..])
  {
    m.TcbIs(curr);
    m.ThreadLinks(curr);
    m.Take(b, Zombies, curr.threadLink);
    m.WaiterOff(curr.tid);
    SiblingAffirms(m, curr);
    m.FreeTcb(curr);
  }

  /** What free_tcb looks at */
  lemma SiblingAffirms(m: TaskManager, curr: Tcb)
    requires m.Ready() && m.Mine(curr) && !m.members.On(curr.tid) && !m.waiters.On(curr.tid)
    ensures !curr.threadLink.InSomeQueue() && !curr.waitLink.InSomeQueue()
  {
    m.ThreadLinks(curr);
    m.LinkApart(m.members);
    m.LinkApart(m.waiters);
    m.members.NotSeen(curr.tid);
    m.waiters.NotSeen(curr.tid);
  }

  lemma SiblingsFreeable(s: State, t: Tid)
    requires Theorems.Inv(s) && t in s.threads && s.threads[t].pc == VanFree && s.threads[t].task in s.tasks
             && FreeSiblings(s, t).Step?
    ensures var p := s.threads[t].task;
            t in s.tasks[p].zombies && SiblingsOk(WithTask(s, p, s.tasks[p].(last := Some(t))), p, t)
  {
    var p := s.threads[t].task;
    var s1 := WithTask(s, p, s.tasks[p].(last := Some(t)));
    var pl: Inv.Places :| Inv.InvAt(s, pl);
    assert Inv.TaskOk(s, p);
    forall z, q | z in s1.tasks[p].zombies && q in s1.tasks
      ensures z !in s1.tasks[q].threads && z !in s1.tasks[q].waiting && (q != p ==> z !in s1.tasks[q].zombies)
    {
      assert Inv.MemberOk(s, p, z) && Inv.TaskOk(s, q) && Inv.MemberOk(s, q, z);
    }
    forall z | z in s1.tasks[p].zombies && z != t
      ensures Freeable(s1.threads, z)
    {
      assert z in s.tasks[p].zombies && IsDead(s, Some(z));
    }
  }

  /** t is the last on the list, and the only one left once those in front of it are gone. */
  lemma LastInList(s: State, t: Tid)
    requires t in s.threads && s.threads[t].task in s.tasks && FreeSiblings(s, t).Step?
             && NoDup(s.tasks[s.threads[t].task].zombies)
    ensures var k := s.tasks[s.threads[t].task];
            && |k.zombies| > 0 && k.zombies[|k.zombies| - 1] == t && k.threads == [] && k.numThreads == 0
              && |k.zombies| == k.numZombies
            && t !in k.zombies[..|k.zombies| - 1]
  {
    var k := s.tasks[s.threads[t].task];
    assert k.zombies == k.zombies[..|k.zombies| - 1] + [t];
    NoDupPrefix(k.zombies[..|k.zombies| - 1], t);
  }

  lemma SiblingsGone(s: State, t: Tid, freed: seq<Tid>)
    requires t in s.threads && s.threads[t].task in s.tasks && FreeSiblings(s, t).Step?
    requires s.tasks[s.threads[t].task].zombies == freed + [t] && t !in freed
    ensures var p := s.threads[t].task;
            var k := s.tasks[p];
            FreeSiblings(s, t).s == WithPc(WithoutSiblings(WithTask(s, p, k.(last := Some(t))), p, freed, [t]), t,
                                           if k.vanished == [] then VanWantTree2 else VanWantInit)
  {
    var zs := s.tasks[s.threads[t].task].zombies;
    assert (map z | z in s.threads && (z == t || z !in zs) :: s.threads[z]) == (map z | z in s.threads
           && z !in freed :: s.threads[z]);
  }

  /** free_sibling_tcb, vanish.c:78-101 */
  method FreeSiblingTcb(m: TaskManager, b: Pcb, tcb: Tcb)
    requires m.Ready() && m.Known(b) && m.Mine(tcb) && SiblingsOk(m.model, b.pid, tcb.tid)
    requires var k := m.model.tasks[b.pid];
             k.threads == [] && k.numThreads == 0 && |k.zombies| == k.numZombies && |k.zombies| > 0
               && k.zombies[|k.zombies| - 1] == tcb.tid
    modifies m.footprint
    ensures m.Ready() && m.footprint == old(m.footprint) && m.pcbs == old(m.pcbs) && m.Mine(tcb)
    ensures var zs := old(m.model).tasks[b.pid].zombies;
            m.model == WithoutSiblings(old(m.model), b.pid, zs[..|zs| - 1], [tcb.tid])
  {
    NoneActive(m, b);
    assert b.threads.front == b.threads.tail == null && b.numThreads == 0;
    var removed, freed := FreeInFront(m, b, tcb);
    LastLeft(old(m.model).tasks[b.pid].zombies, tcb.tid, freed, m.model.tasks[b.pid].zombies);
    OneLeft(m, b, tcb);
    assert removed == b.numZombies - 1 && b.zombies.front == b.zombies.tail == tcb.threadLink;
  }

  lemma NoneActive(m: TaskManager, b: Pcb)
    requires m.Ready() && m.Known(b) && b.pid in m.model.tasks && m.model.tasks[b.pid].threads == []
    ensures b.threads.front == b.threads.tail == null && b.numThreads == m.model.tasks[b.pid].numThreads
  {
    m.PcbIs(b);
    m.EndsOf(b, Threads);
  }

  lemma OneLeft(m: TaskManager, b: Pcb, tcb: Tcb)
    requires m.Ready() && m.Known(b) && m.Mine(tcb) && b.pid in m.model.tasks
             && m.model.tasks[b.pid].zombies == [tcb.tid]
    ensures b.numZombies == m.model.tasks[b.pid].numZombies && b.zombies.front == b.zombies.tail == tcb.threadLink
  {
    m.PcbIs(b);
    m.EndsOf(b, Zombies);
    m.ThreadLinks(tcb);
  }

  /** The loop stops at t, which is the last on the list. */
  lemma LastLeft(zs: seq<Tid>, t: Tid, freed: seq<Tid>, left: seq<Tid>)
    requires NoDup(zs) && zs == freed + left && left != [] && left[0] == t && zs[|zs| - 1] == t
    ensures left == [t] && freed == zs[..|zs| - 1]
  {
    if |left| > 1 {
      NoDupDistinct(zs, |freed|, |zs| - 1);
    }
  }

  /** vanish.c:201 */
  method ChildrenLeft(m: TaskManager, tcb: Tcb)
    requires Acting(m, tcb)
    modifies m.footprint
    ensures m.Stays()
    ensures m.model == WithPc(old(m.model), tcb.tid,
                              if old(m.model).tasks[tcb.task.pid].vanished == [] then VanWantTree2 else VanWantInit)
  {
    var child := m.FrontOf(tcb.task, Vanished);
    m.CleanIs(tcb);
    m.SetPc(tcb, if child == null then VanWantTree2 else VanWantInit);
  }

  /** vanish.c:192-201: free the siblings, and see whether there are children to give away. */
  method FreeTask(m: TaskManager, tcb: Tcb)
    requires Acting(m, tcb) && Theorems.Inv(m.model) && tcb.pc == VanFree && FreeSiblings(m.model, tcb.tid).Step?
    modifies m.footprint
    ensures m.Ready() && m.footprint == old(m.footprint) && m.model == FreeSiblings(old(m.model), tcb.tid).s
  {
    var b := tcb.task;
    m.TcbIs(tcb);
    m.CleanIs(tcb);
    SiblingsFreeable(m.model, tcb.tid);
    LastInList(m.model, tcb.tid);
    ghost var zs := m.model.tasks[b.pid].zombies;
    SiblingsGone(m.model, tcb.tid, zs[..|zs| - 1]);
    m.SetLast(b, tcb);
    FreeSiblingTcb(m, b, tcb);
    ChildrenLeft(m, tcb);
  }

  /** assign_child_task_to_parent_thread, vanish.c:317-349: the first waiter of a task gets the dead child. */
  method AssignChildTask(m: TaskManager, childLast: Tcb, w: Tcb)
    requires m.Ready() && m.Mine(childLast) && m.Known(childLast.task) && m.Mine(w) && m.Known(w.task)
    requires w.task.pid in m.model.tasks && m.model.tasks[w.task.pid].waiting != []
    requires m.model.tasks[w.task.pid].waiting[0] == w.tid && childLast.task.pid in m.model.tasks
             && childLast.task.pid !in m.children.stale
    requires m.model.tasks[childLast.task.pid].last == Some(childLast.tid) && childLast.tid in m.model.threads
    requires AssignChild(m.model, childLast.task.pid, w.task.pid).Step?
    modifies m.footprint
    ensures m.Stays() && m.model == AssignChild(old(m.model), childLast.task.pid, w.task.pid).s
  {
    m.TcbIs(childLast);
    assert childLast.status == Dead;
    TakeWaiter(m, w.task, w);
    GiveChild(m, w.task, w, childLast.task);
  }

  method TakeWaiter(m: TaskManager, q: Pcb, w: Tcb)
    requires m.Ready() && m.Known(q) && m.Mine(w) && q.pid in m.model.tasks && m.model.tasks[q.pid].waiting != []
    requires m.model.tasks[q.pid].waiting[0] == w.tid
    modifies m.footprint
    ensures m.Stays()
    ensures var k := old(m.model).tasks[q.pid];
            m.model == WithTask(old(m.model), q.pid, k.(waiting := Without(k.waiting, w.tid), numWaiting := k.numWaiting - 1))
  {
    m.ThreadLinks(w);
    WaiterInFront(m, q, w);
    assert q.waiting.front == w.waitLink;
    m.Take(q, WaitingThreads, w.waitLink);
    m.Count(q, WaitingThreads, -1);
  }

  lemma WaiterInFront(m: TaskManager, q: Pcb, w: Tcb)
    requires m.Ready() && m.Known(q) && m.Mine(w) && q.pid in m.model.tasks && m.model.tasks[q.pid].waiting != []
    requires m.model.tasks[q.pid].waiting[0] == w.tid
    ensures q.waiting.front == w.waitLink
  {
    m.EndsOf(q, WaitingThreads);
    m.ThreadLinks(w);
  }

  method GiveChild(m: TaskManager, q: Pcb, w: Tcb, c: Pcb)
    requires m.Ready() && m.Known(q) && m.Mine(w) && m.Known(c) && c.pid !in m.children.stale
    requires q.pid in m.model.tasks && w.tid in m.model.threads && m.model.threads[w.tid].status == Blocked
    modifies m.footprint
    ensures m.Stays()
    ensures var s := old(m.model);
            m.model == WithTask(s, q.pid, s.tasks[q.pid].(mux := None))
                       .(threads := s.threads[w.tid := s.threads[w.tid].(collected := Some(c.pid), status := Status.Ready, pc := WaitCollect)])
  {
    m.TcbIs(w);
    assert w.status == Blocked;
    m.CleanIs(w);
    m.SetCollected(w, c);
    m.SetMux(q, None);
    m.SetThread(w, Status.Ready, WaitCollect);
  }

  /** vanish.c:203-209: the vanished children go to init's list in one Q_APPEND. */
  method AppendToInit(m: TaskManager, b: Pcb)
    requires m.Ready() && m.Known(b) && b.pid in m.model.tasks && m.model.init in m.model.tasks && b.pid != m.model.init
    modifies m.footprint
    ensures m.Stays()
    ensures var ts, i := old(m.model).tasks, old(m.model).init;
            m.model == old(m.model).(tasks := ts[b.pid := ts[b.pid].(vanished := [])]
                                              [i := ts[i].(vanished := ts[i].vanished + ts[b.pid].vanished,
                                                           numVanished := ts[i].numVanished + ts[b.pid].numVanished)])
  {
    m.Basics();
    m.AppendVanished(m.initPcb, b);
    m.PcbIs(b);
    m.Count(m.initPcb, Vanished, b.numVanished);
  }

  /** init's state once its first vanished child is off the list. */
  function ChildTaken(s: State): State
    requires s.init in s.tasks && s.tasks[s.init].vanished != []
  {
    var i := s.tasks[s.init];
    WithTask(s, s.init, i.(vanished := Without(i.vanished, i.vanished[0]), numVanished := i.numVanished - 1))
  }

  /** vanish.c:213-224: init's first waiter gets its first vanished child. */
  method ServeInit(m: TaskManager, w: Tcb)
    requires m.Ready() && m.model.init in m.model.tasks && m.Mine(w)
    requires m.model.tasks[m.model.init].waiting != [] && m.model.tasks[m.model.init].waiting[0] == w.tid
    requires m.model.tasks[m.model.init].vanished != [] && w.tid in m.model.threads
             && m.model.threads[w.tid].task == m.model.init
    requires LastOwn(m.model, m.model.tasks[m.model.init].vanished[0])
    requires AssignChild(ChildTaken(m.model), m.model.tasks[m.model.init].vanished[0], m.model.init).Step?
    modifies m.footprint
    ensures m.Stays()
    ensures m.model == AssignChild(ChildTaken(old(m.model)), old(m.model).tasks[old(m.model).init].vanished[0], old(m.model).init).s
  {
    m.Basics();
    var front := m.FrontOf(m.initPcb, Vanished);
    m.ChildIs(m.initPcb, Vanished, front.pid);
    var child := m.pcbs[front.pid];
    LastIs(m, child);
    var last := child.last;
    m.TcbIs(last);
    m.TcbIs(w);
    OffVanished(m, m.initPcb, child);
    AssignChildTask(m, last, w);
  }

  /** The last thread of a dead task is its own. */
  ghost predicate LastOwn(s: State, c: Pid) {
    c in s.tasks && IsDead(s, s.tasks[c].last) && s.threads[s.tasks[c].last.value].task == c
  }

  /** vanish.c:203-228: give the children to init and serve its first waiter, or unlock. */
  method HandOverChildren(m: TaskManager, tcb: Tcb)
    requires Acting(m, tcb) && Theorems.Inv(m.model) && tcb.pc == VanHasInit && HandOver(m.model, tcb.tid).Step?
    modifies m.footprint
    ensures m.Stays() && m.model == HandOver(old(m.model), tcb.tid).s
  {
    m.TcbIs(tcb);
    HandOverFacts(m.model, tcb.tid);
    GiveToInit(m, tcb);
    HandOverIs(old(m.model), m.model, tcb.tid);
    ServeOrUnlock(m);
  }

  method GiveToInit(m: TaskManager, tcb: Tcb)
    requires Acting(m, tcb) && m.model.init in m.model.tasks && tcb.task.pid != m.model.init
    modifies m.footprint
    ensures m.Stays()
    ensures var ts, i, p := old(m.model).tasks, old(m.model).init, tcb.task.pid;
            m.model == WithPc(old(m.model).(tasks := ts[p := ts[p].(vanished := [])]
                                                       [i := ts[i].(vanished := ts[i].vanished + ts[p].vanished,
                                                                    numVanished := ts[i].numVanished + ts[p].numVanished)]),
                              tcb.tid, VanWantTree2)
  {
    m.CleanIs(tcb);
    AppendToInit(m, tcb.task);
    m.SetPc(tcb, VanWantTree2);
  }

  /** vanish.c:210-228 */
  method ServeOrUnlock(m: TaskManager)
    requires m.Ready() && m.model.init in m.model.tasks && m.model.tasks[m.model.init].vanished != []
    requires Waiting(m.model) && LastOwn(m.model, m.model.tasks[m.model.init].vanished[0])
    requires m.model.tasks[m.model.init].waiting != [] ==>
               AssignChild(ChildTaken(m.model), m.model.tasks[m.model.init].vanished[0], m.model.init).Step?
    modifies m.footprint
    ensures m.Stays()
    ensures var s := old(m.model);
            var i := s.tasks[s.init];
            m.model == if i.waiting == [] then WithTask(s, s.init, i.(mux := None))
                       else AssignChild(ChildTaken(s), i.vanished[0], s.init).s
  {
    m.Basics();
    var waiting := m.FrontOf(m.initPcb, WaitingThreads);
    if waiting == null {
      m.SetMux(m.initPcb, None);
    } else {
      m.ThreadIs(m.initPcb, WaitingThreads, waiting.pid);
      ServeInit(m, m.threads[waiting.pid]);
    }
  }

  /** init's waiting threads are its own. */
  ghost predicate Waiting(s: State)
    requires s.init in s.tasks
  {
    forall w :: w in s.tasks[s.init].waiting ==> w in s.threads && s.threads[w].task == s.init
  }

  lemma HandOverFacts(s: State, t: Tid)
    requires Theorems.Inv(s) && t in s.threads && s.threads[t].task in s.tasks && s.threads[t].pc == VanHasInit
             && HandOver(s, t).Step?
    ensures s.init in s.tasks && s.threads[t].task != s.init
    ensures forall c :: c in s.tasks[s.init].vanished || c in s.tasks[s.threads[t].task].vanished ==>
              LastOwn(s, c) && s.tasks[c].last != Some(t)
    ensures forall w :: w in s.tasks[s.init].waiting ==> w in s.threads && s.threads[w].task == s.init && w != t
  {
    var pl: Inv.Places :| Inv.InvAt(s, pl);
    forall c, q | q in s.tasks && c in s.tasks[q].vanished
      ensures LastOwn(s, c) && s.tasks[c].last != Some(t)
    {
      assert Inv.ListsOk(s, pl, q, c) && Inv.PlaceOk(s, pl, c);
      assert Inv.ThreadOk(s, s.tasks[c].last.value);
    }
    forall w | w in s.tasks[s.init].waiting
      ensures w in s.threads && s.threads[w].task == s.init && w != t
    {
      assert Inv.TaskOk(s, s.init) && Inv.MemberOk(s, s.init, w);
    }
  }

  /** The step of module TaskLife, seen from the state after the append. */
  lemma HandOverIs(s: State, s1: State, t: Tid)
    requires t in s.threads && s.threads[t].task in s.tasks && s.init in s.tasks && HandOver(s, t).Step?
    requires var p, i := s.threads[t].task, s.init;
             s1 == WithPc(s.(tasks := s.tasks[p := s.tasks[p].(vanished := [])]
                                             [i := s.tasks[i].(vanished := s.tasks[i].vanished + s.tasks[p].vanished,
                                                               numVanished := s.tasks[i].numVanished + s.tasks[p].numVanished)]),
                          t, VanWantTree2)
    ensures var i := s1.tasks[s.init];
            && i.vanished != []
            && HandOver(s, t) ==
               if i.waiting == [] then Step(WithTask(s1, s.init, i.(mux := None)))
               else AssignChild(WithTask(s1, s.init, i.(vanished := Without(i.vanished, i.vanished[0]),
                                                        numVanished := i.numVanished - 1)), i.vanished[0], s.init)
  {
    var s0 := WithPc(WithTask(s, s.threads[t].task, s.tasks[s.threads[t].task].(vanished := [])), t, VanWantTree2);
    assert forall k: Task :: WithTask(s1, s.init, k) == WithTask(s0, s.init, k);
  }

  /** vanish.c:234-253 up to the lock: find_pcb of the parent; without one the child's link is initialised again. */
  method FindParent(m: TaskManager, tcb: Tcb)
    requires Acting(m, tcb) && Theorems.Inv(m.model) && tcb.pc == VanHasTree2
    modifies m.footprint
    ensures m.Remains() && m.model == FindTarget(old(m.model), tcb.tid).s
  {
    var b := tcb.task;
    m.Basics();
    m.TcbIs(tcb);
    m.PcbIs(b);
    m.CleanIs(tcb);
    var parent := m.FindPcb(b.parentPid);
    if parent != null {
      m.SetPc(tcb, VanWantTarget(parent.pid, false));
    } else {
      OrphanUnlinked(m.model, tcb.tid);
      m.ChildOn(b.pid);
      m.ResetChildLink(b);
      m.CleanIs(tcb);
      m.SetPc(tcb, VanWantTarget(m.initPcb.pid, true));
    }
  }

  /** A dying task whose parent is gone is on no list of children, whatever its link says. */
  lemma OrphanUnlinked(s: State, t: Tid)
    requires Theorems.Inv(s) && t in s.threads && s.threads[t].task in s.tasks && s.threads[t].pc == VanHasTree2
    requires var q := s.tasks[s.threads[t].task].parent; !(q in s.tasks && s.tasks[q].listed)
    ensures !OnSomeList(s, s.threads[t].task)
  {
    var pl: Inv.Places :| Inv.InvAt(s, pl);
    var p := s.threads[t].task;
    assert Inv.CarriesOk(s, pl, t);
    forall q | q in s.tasks
      ensures p !in s.tasks[q].active && p !in s.tasks[q].vanished
    {
      assert Inv.ListsOk(s, pl, q, p) && Inv.TaskOk(s, q);
    }
  }

  /** vanish.c:236-257, once the mutex of q is free. */
  method EnterParent(m: TaskManager, tcb: Tcb, q: Pcb, orphan: bool)
    requires Acting(m, tcb) && m.Known(q) && tcb.pc == VanWantTarget(q.pid, orphan)
             && EnterTarget(m.model, tcb.tid, q.pid, orphan).Step?
    modifies m.footprint
    ensures m.Stays() && m.model == EnterTarget(old(m.model), tcb.tid, q.pid, orphan).s
  {
    var b := tcb.task;
    m.TcbIs(tcb);
    m.CleanIs(tcb);
    if !orphan {
      m.ChildIs(q, Active, b.pid);
    }
    m.SetMux(q, Some(tcb.tid));
    m.SetTree(None);
    if !orphan {
      m.ChildLink(b);
      m.Take(q, Active, b.childLink);
      m.Count(q, Active, -1);
    }
    m.SetPc(tcb, VanHasTarget(q.pid, orphan));
  }

  /** vanish.c:263-285: the yield makes the thread DEAD, then its callback runs. */
  method ReportDeath(m: TaskManager, tcb: Tcb, q: Pcb)
    requires Acting(m, tcb) && Theorems.Inv(m.model) && m.Known(q) && tcb.pc.VanHasTarget? && tcb.pc.target == q.pid
    requires Report(m.model, tcb.tid, q.pid).Step?
    modifies m.footprint
    ensures m.Stays() && m.model == Report(old(m.model), tcb.tid, q.pid).s
  {
    m.TcbIs(tcb);
    m.CleanIs(tcb);
    m.PcbIs(q);
    ReportFacts(m.model, tcb.tid, q.pid);
    var waiting := m.FrontOf(q, WaitingThreads);
    m.SetThread(tcb, Dead, Gone);
    if waiting != null {
      m.ThreadIs(q, WaitingThreads, waiting.pid);
      m.TcbIs(m.threads[waiting.pid]);
      AssignChildTask(m, tcb, m.threads[waiting.pid]);
    } else {
      LeaveOnList(m, tcb.task, q);
    }
  }

  /** vanish.c:277-285 with call_back_mutex_unlock: nobody waits, the dead task goes on the list. */
  method LeaveOnList(m: TaskManager, b: Pcb, q: Pcb)
    requires m.Ready() && m.Known(b) && m.Known(q) && q.pid in m.model.tasks && b.pid !in m.children.stale
             && !OnSomeList(m.model, b.pid)
    modifies m.footprint
    ensures m.Stays()
    ensures var k := old(m.model).tasks[q.pid];
            m.model == WithTask(old(m.model), q.pid, k.(vanished := k.vanished + [b.pid], numVanished := k.numVanished + 1, mux := None))
  {
    m.ChildLink(b);
    m.ChildOn(b.pid);
    m.Push(q, Vanished, b.childLink);
    m.Count(q, Vanished, 1);
    m.SetMux(q, None);
  }

  lemma ReportFacts(s: State, t: Tid, q: Pid)
    requires Theorems.Inv(s) && t in s.threads && s.threads[t].task in s.tasks && q in s.tasks
    requires s.threads[t].pc.VanHasTarget? && s.threads[t].pc.target == q
    ensures s.tasks[s.threads[t].task].last == Some(t) && q != s.threads[t].task
    ensures forall w :: w in s.tasks[q].waiting ==> w in s.threads && s.threads[w].task == q
  {
    var pl: Inv.Places :| Inv.InvAt(s, pl);
    assert Inv.ThreadOk(s, t) && Inv.PcOk(s, pl, t);
    forall w | w in s.tasks[q].waiting
      ensures w in s.threads && s.threads[w].task == q
    {
      assert Inv.TaskOk(s, q) && Inv.MemberOk(s, q, w);
    }
  }

  // ------------------------------------------------------------------ entering a system call

  /** No block has this number for a thread. */
  ghost predicate Unused(s: State, t: Tid) {
    && t !in s.threads
    && forall p :: p in s.tasks ==> s.tasks[p].last != Some(t) && t !in s.tasks[p].threads && t !in s.tasks[p].zombies
                                    && t !in s.tasks[p].waiting
  }

  /** create_tcb, task_manager.c:369-419 */
  method CreateThread(m: TaskManager, b: Pcb) returns (tcb: Tcb)
    requires m.Ready() && m.Known(b) && b.pid in m.model.tasks && Unused(m.model, m.model.nextTid)
    modifies m.footprint
    ensures m.Ready() && fresh(m.footprint - old(m.footprint)) && m.children.stale == old(m.children.stale)
    ensures m.pcbs == old(m.pcbs) && fresh(tcb) && tcb.tid == old(m.model).nextTid && tcb.task == b
    ensures m.threads == old(m.threads)[tcb.tid := tcb] && m.model == CreateTcb(old(m.model), b.pid)
  {
    tcb := NewThread(m, b);
    JoinTask(m, b, tcb);
  }

  method NewThread(m: TaskManager, b: Pcb) returns (tcb: Tcb)
    requires m.Ready() && m.Known(b) && b.pid in m.model.tasks && Unused(m.model, m.model.nextTid)
    modifies m.footprint
    ensures m.Ready() && fresh(m.footprint - old(m.footprint)) && m.children.stale == old(m.children.stale)
    ensures m.pcbs == old(m.pcbs) && fresh(tcb) && tcb.tid == old(m.model).nextTid && tcb.task == b
    ensures m.threads == old(m.threads)[tcb.tid := tcb]
    ensures var t := tcb.tid;
            m.model == old(m.model).(threads := old(m.model).threads[t := Thread(b.pid, Uninitialized, Idle, None)], nextTid := t + 1)
  {
    m.Basics();
    tcb := new Tcb(m.nextTid, b);
    m.AddTcb(tcb);
  }

  /** The new thread is put on its task's list and counted. */
  method JoinTask(m: TaskManager, b: Pcb, tcb: Tcb)
    requires m.Ready() && m.Known(b) && m.Mine(tcb) && b.pid in m.model.tasks
    requires forall p :: p in m.model.tasks ==> tcb.tid !in m.model.tasks[p].threads && tcb.tid !in m.model.tasks[p].zombies
    modifies m.footprint
    ensures m.Stays()
    ensures var k := old(m.model).tasks[b.pid];
            m.model == WithTask(old(m.model), b.pid, k.(threads := k.threads + [tcb.tid], numThreads := k.numThreads + 1,
                                                        totalThreads := k.totalThreads + 1))
  {
    m.ThreadLinks(tcb);
    m.MemberOff(tcb.tid);
    m.Push(b, Threads, tcb.threadLink);
    m.Count(b, Threads, 1);
    m.CountTotal(b);
  }

  /** What Inv says of the numbers that have not been given out. */
  lemma ActorOk(s: State, t: Tid)
    requires Theorems.Inv(s) && t in s.threads
    ensures s.threads[t].task in s.tasks && Unused(s, s.nextTid) && s.nextPid !in s.tasks && s.init < s.nextPid
    ensures forall u :: u in s.threads ==> s.threads[u].task != s.nextPid && s.threads[u].collected != Some(s.nextPid)
  {
    var pl: Inv.Places :| Inv.InvAt(s, pl);
    assert Inv.ThreadOk(s, t) && Inv.TaskOk(s, s.init);
    assert s.nextTid in s.threads ==> Inv.ThreadOk(s, s.nextTid);
    forall p | p in s.tasks
      ensures p != s.nextPid && s.nextTid !in s.tasks[p].threads && s.nextTid !in s.tasks[p].zombies
      ensures s.nextTid !in s.tasks[p].waiting && s.tasks[p].last != Some(s.nextTid)
    {
      assert Inv.TaskOk(s, p) && Inv.MemberOk(s, p, s.nextTid);
      if s.tasks[p].last.Some? {
        LastExists(s, pl, p);
      }
    }
    forall u | u in s.threads
      ensures s.threads[u].task in s.tasks && (s.threads[u].collected.Some? ==> s.threads[u].collected.value in s.tasks)
    {
      assert Inv.ThreadOk(s, u) && Inv.CarriesOk(s, pl, u);
    }
  }

  lemma LastExists(s: State, pl: Inv.Places, p: Pid)
    requires Inv.InvAt(s, pl) && p in s.tasks && s.tasks[p].last.Some?
    ensures s.tasks[p].last.value in s.threads
  {
    assert Inv.PlaceOk(s, pl, p) && Inv.TaskOk(s, p);
    if pl[p].Carried? {
      assert Inv.PcOk(s, pl, pl[p].who);
    }
  }

  /** create_pcb for a child of task `parent` */
  method CreateTask(m: TaskManager, parent: Pid) returns (c: Pcb)
    requires m.Ready() && m.Forgotten(m.model.nextPid) && m.model.nextPid != m.model.init
    modifies m.footprint
    ensures m.Ready() && fresh(m.footprint - old(m.footprint)) && m.children.stale == old(m.children.stale)
    ensures m.Known(c) && m.threads == old(m.threads) && c.pid == old(m.model).nextPid && c.pid !in m.children.stale
    ensures m.pcbs == old(m.pcbs)[c.pid := c]
    ensures m.model == WithTask(old(m.model), c.pid, NewTask(parent)).(nextPid := c.pid + 1)
  {
    m.Basics();
    c := new Pcb(m.nextPid, parent);
    m.AddPcb(c);
  }

  /** fork.c:63-135 up to the first lock: both control blocks of the child. */
  method CreateChild(m: TaskManager, tcb: Tcb)
    requires Acting(m, tcb) && Theorems.Inv(m.model) && CallStep(m.model, tcb.tid, Fork).Step?
    modifies m.footprint
    ensures m.Ready() && fresh(m.footprint - old(m.footprint)) && m.model == CallStep(old(m.model), tcb.tid, Fork).s
  {
    ActorOk(m.model, tcb.tid);
    m.CleanIs(tcb);
    var c := CreateTask(m, tcb.task.pid);
    var child := CreateThread(m, c);
    m.SetPc(tcb, ForkWantMux(c.pid, child.tid));
  }

  /** Entering a system call: thread_fork, fork, wait, _vanish. */
  method Enter(m: TaskManager, tcb: Tcb, call: Syscall) returns (r: Result)
    requires Acting(m, tcb) && Theorems.Inv(m.model) && !CallStep(m.model, tcb.tid, call).Panic?
    modifies m.footprint
    ensures m.Ready() && fresh(m.footprint - old(m.footprint))
    ensures Follows(CallStep(old(m.model), tcb.tid, call), r, old(m.model), m.model)
  {
    ActorOk(m.model, tcb.tid);
    m.Basics();
    m.TcbIs(tcb);
    m.CleanIs(tcb);
    m.PcbIs(tcb.task);
    if tcb.pc != Idle {
      return NotNow;
    }
    match call {
    case Spawn =>
      if tcb.task.mux != None {
        return NotNow;
      }
      var thread := CreateThread(m, tcb.task);
      m.TcbIs(thread);
      m.SetThread(thread, Status.Ready, Idle);
    case Fork =>
      if tcb.task.numThreads != 1 {
        return NotNow;
      }
      CreateChild(m, tcb);
    case Wait =>
      assert tcb.collected == null;
      m.SetPc(tcb, WaitWantMux);
    case Vanish =>
      if tcb.task.pid == m.initPcb.pid {
        return NotNow;
      }
      m.SetPc(tcb, VanWantTree);
    }
    return Ran;
  }

  // ------------------------------------------------------------------ one step

  method GoFork(m: TaskManager, tcb: Tcb) returns (r: Result)
    requires Acting(m, tcb) && Theorems.Inv(m.model) && !ForkStep(m.model, tcb.tid).Panic?
    modifies m.footprint
    ensures m.Stays() && Follows(ForkStep(old(m.model), tcb.tid), r, old(m.model), m.model)
  {
    m.Basics();
    m.TcbIs(tcb);
    m.CleanIs(tcb);
    match tcb.pc {
    case ForkWantMux(c, ct) =>
      r := LockTask(m, tcb, tcb.task, ForkHasMux(c, ct));
    case ForkHasMux(c, ct) =>
      m.PcbAt(c);
      LinkChild(m, tcb, m.pcbs[c], ct);
      r := Ran;
    case ForkLinked(c, ct) =>
      m.TcbAt(ct);
      FinishFork(m, tcb, m.threads[ct]);
      r := Ran;
    case _ =>
      r := NotNow;
    }
  }

  method GoWait(m: TaskManager, tcb: Tcb) returns (r: Result)
    requires Acting(m, tcb) && Theorems.Inv(m.model) && !WaitStep(m.model, tcb.tid).Panic?
    modifies m.footprint
    ensures m.Ready() && m.footprint == old(m.footprint)
    ensures Follows(WaitStep(old(m.model), tcb.tid), r, old(m.model), m.model)
  {
    m.TcbIs(tcb);
    m.CleanIs(tcb);
    match tcb.pc {
    case WaitWantMux =>
      r := LockTask(m, tcb, tcb.task, WaitHasMux);
    case WaitHasMux =>
      Region(m, tcb);
      r := Ran;
    case WaitCollect =>
      Collect(m, tcb);
      r := Ran;
    case _ =>
      r := NotNow;
    }
  }

  method GoVanish(m: TaskManager, tcb: Tcb) returns (r: Result)
    requires Acting(m, tcb) && Theorems.Inv(m.model) && !VanishStep(m.model, tcb.tid).Panic?
    modifies m.footprint
    ensures m.Ready() && m.footprint == old(m.footprint)
    ensures Follows(VanishStep(old(m.model), tcb.tid), r, old(m.model), m.model)
  {
    m.Basics();
    m.TcbIs(tcb);
    m.CleanIs(tcb);
    match tcb.pc {
    case VanWantTree =>
      r := LockTree(m, tcb, VanWantMux);
    case VanWantMux =>
      r := LockTask(m, tcb, tcb.task, VanHasBoth);
    case VanHasBoth =>
      Leave(m, tcb);
      r := Ran;
    case VanFree =>
      FreeTask(m, tcb);
      r := Ran;
    case VanWantInit =>
      r := LockTask(m, tcb, m.initPcb, VanHasInit);
    case VanHasInit =>
      HandOverChildren(m, tcb);
      r := Ran;
    case _ =>
      r := NotNow;
    }
  }

  method GoReport(m: TaskManager, tcb: Tcb) returns (r: Result)
    requires Acting(m, tcb) && Theorems.Inv(m.model) && !ReportStep(m.model, tcb.tid).Panic?
    modifies m.footprint
    ensures m.Ready() && m.footprint == old(m.footprint)
    ensures Follows(ReportStep(old(m.model), tcb.tid), r, old(m.model), m.model)
  {
    m.Basics();
    m.TcbIs(tcb);
    m.CleanIs(tcb);
    match tcb.pc {
    case VanWantTree2 =>
      r := LockTree(m, tcb, VanHasTree2);
    case VanHasTree2 =>
      FindParent(m, tcb);
      r := Ran;
    case VanWantTarget(q, orphan) =>
      m.PcbAt(q);
      m.PcbIs(m.pcbs[q]);
      if m.pcbs[q].mux != None {
        return NotNow;
      }
      EnterParent(m, tcb, m.pcbs[q], orphan);
      r := Ran;
    case VanHasTarget(q, _) =>
      m.PcbAt(q);
      ReportDeath(m, tcb, m.pcbs[q]);
      r := Ran;
    case _ =>
      r := NotNow;
    }
  }

  method Go(m: TaskManager, tcb: Tcb) returns (r: Result)
    requires Acting(m, tcb) && Theorems.Inv(m.model) && !GoStep(m.model, tcb.tid).Panic?
    modifies m.footprint
    ensures m.Ready() && m.footprint == old(m.footprint)
    ensures Follows(GoStep(old(m.model), tcb.tid), r, old(m.model), m.model)
  {
    m.TcbIs(tcb);
    if InFork(tcb.pc) {
      r := GoFork(m, tcb);
    } else if InWait(tcb.pc) {
      r := GoWait(m, tcb);
    } else if InReport(tcb.pc) {
      r := GoReport(m, tcb);
    } else {
      r := GoVanish(m, tcb);
    }
  }

  /** One step of one thread, on the heap: the code does what the protocol says, no affirm fails, no freed block and
      no stale link is used, and the invariant of the protocol still holds. */
  method Act(m: TaskManager, a: Action) returns (r: Result)
    requires m.Ready() && Theorems.Inv(m.model)
    modifies m.footprint
    ensures m.Ready() && Theorems.Inv(m.model) && fresh(m.footprint - old(m.footprint))
    ensures Follows(Next(old(m.model), a), r, old(m.model), m.model)
  {
    Theorems.StepInv(m.model, a);
    m.Basics();
    if a.t !in m.threads {
      return NotNow;
    }
    m.TcbAt(a.t);
    var tcb := m.threads[a.t];
    m.TcbIs(tcb);
    if tcb.status != Status.Ready {
      return NotNow;
    }
    ActorOk(m.model, a.t);
    match a
    case Call(_, call) =>
      r := Enter(m, tcb, call);
    case Go(_) =>
      r := Go(m, tcb);
  }

  // ------------------------------------------------------------------ the first task

  /** Two links without queues and elements. */
  method TwoLinks() returns (a: Links, b: Links)
    ensures a.Valid() && b.Valid() && fresh(a.Frame()) && fresh(b.Frame()) && a.Frame() !! b.Frame()
    ensures a.lists == b.lists == map[] && a.elems == b.elems == map[] && a.stale == b.stale == {}
  {
    a := new Links();
    b := new Links();
  }

  /** A link with one empty queue, and one with none */
  method ListLinks() returns (a: Links, b: Links, q: Queue)
    ensures a.Valid() && b.Valid() && fresh(a.Frame()) && fresh(b.Frame()) && a.Frame() !! b.Frame()
    ensures a.lists == map[q := []] && b.lists == map[] && a.elems == b.elems == map[] && a.stale == b.stale == {}
  {
    a, b := TwoLinks();
    q := new Queue();
    a.AddQueue(q);
  }

  /** All four links; `tasks` has one empty queue. */
  method FourLinks() returns (children: Links, tasks: Links, members: Links, waiters: Links, pcbList: Queue)
    ensures children.Valid() && tasks.Valid() && members.Valid() && waiters.Valid()
    ensures fresh(children.Frame()) && fresh(tasks.Frame()) && fresh(members.Frame()) && fresh(waiters.Frame())
    ensures children.Frame() !! tasks.Frame() && children.Frame() !! members.Frame()
            && children.Frame() !! waiters.Frame()
    ensures tasks.Frame() !! members.Frame() && tasks.Frame() !! waiters.Frame() && members.Frame() !! waiters.Frame()
    ensures children.lists == members.lists == waiters.lists == map[] && tasks.lists == map[pcbList := []]
    ensures children.elems == tasks.elems == members.elems == waiters.elems == map[]
    ensures children.stale == tasks.stale == members.stale == waiters.stale == {}
  {
    children, members := TwoLinks();
    tasks, waiters, pcbList := ListLinks();
  }

  /** Nothing but the init task's block, which is on no list yet */
  method EmptyManager(init: Pcb, t: Tid) returns (m: TaskManager)
    ensures m.Ready() && fresh(m.footprint) && m.initPcb == init
    ensures m.model == State(init.pid, map[], map[], None, init.pid, t, [])
  {
    var children, tasks, members, waiters, pcbList := FourLinks();
    m := new TaskManager(init, t, children, tasks, members, waiters, pcbList);
  }

  /** init's block is in its place. */
  method FirstTask(init: Pid, t: Tid) returns (m: TaskManager)
    ensures m.Ready() && fresh(m.footprint) && m.Known(m.initPcb) && m.initPcb.pid == init
    ensures m.model == State(init, map[init := NewTask(0)], map[], None, init + 1, t, [])
  {
    var b := new Pcb(init, 0);
    m := EmptyManager(b, t);
    m.Basics();
    assert forall o :: o in b.Parts() ==> o !in m.footprint;
    m.AddPcb(b);
  }

  /** init alone, with one idle thread */
  method Boot(init: Pid, t: Tid) returns (m: TaskManager)
    ensures m.Ready() && fresh(m.footprint) && m.model == Initial(init, t)
  {
    m := FirstTask(init, t);
    var tcb := CreateThread(m, m.initPcb);
    m.TcbIs(tcb);
    m.SetThread(tcb, Status.Ready, Idle);
    assert [] + [t] == [t];
    assert m.model.tasks == Initial(init, t).tasks && m.model.threads == Initial(init, t).threads;
  }
}
