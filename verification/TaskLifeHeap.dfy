/** The control blocks of all tasks and threads on the lists that fork, wait and vanish keep: pcb_list, the active
    and vanished children, the waiting threads, the active and vanished threads.  `model` is the state of module
    TaskLife that the heap stands for; every operation on the heap is proved to move it. */
module TaskLifeHeap {
  import opened Seqs
  import opened IntrusiveQueue
  import opened NamedQueues
  import opened TaskLife
  import opened TaskLifeBlocks

  class TaskManager {
    const initPcb: Pcb
    const pcbList: Queue
    const children: Links       // the lists on vanished_child_tasks_link
    const tasks: Links          // pcb_list, on task_link
    const members: Links        // the lists on task_thread_link
    const waiters: Links        // the lists on waiting_threads_link
    var pcbs: map<Pid, Pcb>     // the control blocks that are allocated
    var threads: map<Tid, Tcb>
    var tree: Option<Tid>
    var nextPid: Pid
    var nextTid: Tid
    ghost var owner: map<Queue, (Pid, Kind)>
    ghost var model: State
    ghost var footprint: set<object>

    // ------------------------------------------------------------------ the heap and the model

    ghost function Built(): Blocks
      reads this, children, tasks, members, waiters
    {
      Blocks(pcbs, threads, owner, children.lists.Keys, members.lists.Keys, waiters.lists.Keys,
             children.elems, tasks.elems, members.elems, waiters.elems)
    }

    ghost function Held(): Contents
      reads children, tasks, members, waiters
    {
      Contents(if pcbList in tasks.lists then tasks.lists[pcbList] else [], children.lists, members.lists, waiters.lists)
    }

    ghost predicate FieldsOk(b: Pcb, k: Task)
      reads this`threads, b
    {
      && b.parentPid == k.parent && b.mux == k.mux
      && b.numActive == k.numActive && b.numVanished == k.numVanished && b.numWaiting == k.numWaiting
      && b.numThreads == k.numThreads && b.numZombies == k.numZombies && b.totalThreads == k.totalThreads && (if b.last == null then k.last == None else k.last == Some(b.last.tid) && (b.last.tid in threads ==> Mine(b.last)))
    }

    ghost predicate ThreadOk(b: Tcb, th: Thread)
      reads this`pcbs, b
    {
      && b.task.pid == th.task && b.status == th.status && b.pc == th.pc
      && (if b.collected == null then th.collected == None
          else th.collected == Some(b.collected.pid) && (b.collected.pid in pcbs ==> Known(b.collected)))
    }

    ghost predicate FieldsAt(ts: map<Pid, Task>, p: Pid)
      requires p in pcbs
      reads this`pcbs, this`threads, pcbs[p]
    {
      p in ts && FieldsOk(pcbs[p], ts[p])
    }

    ghost predicate ThreadAt(hs: map<Tid, Thread>, t: Tid)
      requires t in threads
      reads this`pcbs, this`threads, threads[t]
    {
      t in hs && ThreadOk(threads[t], hs[t])
    }

    ghost predicate PcbsAre(ts: map<Pid, Task>)
      reads this`pcbs, this`threads, pcbs.Values
    {
      pcbs.Keys == ts.Keys && forall p {:trigger FieldsAt(ts, p)} :: p in pcbs ==> FieldsAt(ts, p)
    }

    ghost predicate TcbsAre(hs: map<Tid, Thread>)
      reads this`pcbs, this`threads, threads.Values
    {
      threads.Keys == hs.Keys && forall t {:trigger ThreadAt(hs, t)} :: t in threads ==> ThreadAt(hs, t)
    }

    ghost predicate VarsAre(s: State)
      reads this`pcbs, this`tree, this`nextPid, this`nextTid
    {
      && initPcb.pid == s.init && (s.init in pcbs ==> Known(initPcb))
      && tree == s.tree && nextPid == s.nextPid && nextTid == s.nextTid
    }

    /** All objects of the manager are in the footprint. */
    ghost predicate Covers(f: set<object>)
      reads this`pcbs, this`threads, this`footprint, children, children.heap, tasks, tasks.heap
      reads members, members.heap, waiters, waiters.heap
    {
      && f == footprint && pcbs.Values <= f && threads.Values <= f
      && children.Frame() <= f && tasks.Frame() <= f && members.Frame() <= f && waiters.Frame() <= f
    }

    ghost predicate Covered()
      reads this`pcbs, this`threads, this`footprint, children, children.heap, tasks, tasks.heap
      reads members, members.heap, waiters, waiters.heap
    {
      this in footprint && forall f {:trigger Covers(f)} :: f == footprint ==> Covers(f)
    }

    /** The pointers of the lists are in order, and the four links share no object. */
    ghost predicate LinksHold(ls: map<Queue, seq<nat>>)
      reads children, children.heap, children.heap.queues, children.heap.elems
      reads tasks, tasks.heap, tasks.heap.queues, tasks.heap.elems
      reads members, members.heap, members.heap.queues, members.heap.elems
      reads waiters, waiters.heap, waiters.heap.queues, waiters.heap.elems
    {
      && ls == children.lists
      && children.Valid() && tasks.Valid() && members.Valid() && waiters.Valid()
      && tasks.stale == {} && members.stale == {} && waiters.stale == {} && tasks.lists.Keys == {pcbList}
      && children.Frame() !! tasks.Frame() && children.Frame() !! members.Frame() && children.Frame() !! waiters.Frame()
      && tasks.Frame() !! members.Frame() && tasks.Frame() !! waiters.Frame() && members.Frame() !! waiters.Frame()
    }

    ghost predicate Linked()
      reads children, children.heap, children.heap.queues, children.heap.elems
      reads tasks, tasks.heap, tasks.heap.queues, tasks.heap.elems
      reads members, members.heap, members.heap.queues, members.heap.elems
      reads waiters, waiters.heap, waiters.heap.queues, waiters.heap.elems
    {
      forall ls {:trigger LinksHold(ls)} :: ls == children.lists ==> LinksHold(ls)
    }

    /** The heap stands for s. */
    ghost predicate Agrees(s: State)
      reads this, children, tasks, members, waiters, pcbs.Values, threads.Values
    {
      && VarsAre(s) && BlocksOk(Built()) && AllLists(Held(), pcbs, s.tasks) && AllClean(s.threads, children.stale)
      && PcbsAre(s.tasks) && TcbsAre(s.threads)
    }

    /** The heap stands for the model; in this form a proof sees how only when it mentions Agrees. */
    ghost predicate Ready()
      reads this, children, children.heap, children.heap.queues, children.heap.elems
      reads tasks, tasks.heap, tasks.heap.queues, tasks.heap.elems
      reads members, members.heap, members.heap.queues, members.heap.elems
      reads waiters, waiters.heap, waiters.heap.queues, waiters.heap.elems, pcbs.Values, threads.Values
    {
      Covered() && Linked() && forall s {:trigger Agrees(s)} :: s == model ==> Agrees(s)
    }

    /** Still the same control blocks, and in accord with the model. */
    twostate predicate Stays()
      reads this, children, children.heap, children.heap.queues, children.heap.elems
      reads tasks, tasks.heap, tasks.heap.queues, tasks.heap.elems
      reads members, members.heap, members.heap.queues, members.heap.elems
      reads waiters, waiters.heap, waiters.heap.queues, waiters.heap.elems, pcbs.Values, threads.Values
    {
      Remains() && children.stale == old(children.stale)
    }

    twostate predicate Remains()
      reads this, children, children.heap, children.heap.queues, children.heap.elems
      reads tasks, tasks.heap, tasks.heap.queues, tasks.heap.elems
      reads members, members.heap, members.heap.queues, members.heap.elems
      reads waiters, waiters.heap, waiters.heap.queues, waiters.heap.elems, pcbs.Values, threads.Values
    {
      Ready() && footprint == old(footprint) && pcbs == old(pcbs) && threads == old(threads)
    }

    ghost predicate Known(b: Pcb)
      reads this`pcbs
    {
      b.pid in pcbs && pcbs[b.pid] == b
    }

    ghost predicate Mine(b: Tcb)
      reads this`threads
    {
      b.tid in threads && threads[b.tid] == b
    }

    // ------------------------------------------------------------------ what the heap says of the model

    lemma Basics()
      requires Ready()
      ensures initPcb.pid == model.init && tree == model.tree && nextPid == model.nextPid && nextTid == model.nextTid
      ensures pcbs.Keys == model.tasks.Keys && threads.Keys == model.threads.Keys
      ensures model.init in model.tasks ==> Known(initPcb)
    {
      assert Agrees(model);
    }

    lemma PcbIs(b: Pcb)
      requires Ready() && Known(b)
      ensures b.pid in model.tasks && FieldsOk(b, model.tasks[b.pid])
    {
      assert Agrees(model) && FieldsAt(model.tasks, b.pid);
    }

    lemma TcbIs(b: Tcb)
      requires Ready() && Mine(b)
      ensures b.tid in model.threads && ThreadOk(b, model.threads[b.tid])
      ensures b.task.pid in pcbs ==> Known(b.task)
    {
      assert Agrees(model) && ThreadAt(model.threads, b.tid) && TcbOk(Built(), b.tid);
    }

    lemma PcbAt(p: Pid)
      requires Ready() && p in pcbs
      ensures Known(pcbs[p]) && pcbs[p].pid == p
    {
      assert Agrees(model) && PcbOk(Built(), p);
    }

    lemma TcbAt(t: Tid)
      requires Ready() && t in threads
      ensures Mine(threads[t]) && threads[t].tid == t
    {
      assert Agrees(model) && TcbOk(Built(), t);
    }

    /** The lists of a task, and their heads and links. */
    lemma PcbLists(b: Pcb)
      requires Ready() && Known(b)
      ensures b.pid in model.tasks && ListsOk(Held(), b, model.tasks[b.pid]) && PcbOk(Built(), b.pid)
    {
      assert Agrees(model) && ListsAt(Held(), pcbs, model.tasks, b.pid) && PcbOk(Built(), b.pid);
    }

    lemma TcbLinks(b: Tcb)
      requires Ready() && Mine(b)
      ensures TcbOk(Built(), b.tid)
    {
      assert Agrees(model);
    }

    // ------------------------------------------------------------------ what stays when little is written

    twostate predicate OnlyLists()
      reads this, pcbs.Values, threads.Values
    {
      BlocksKept() && unchanged(`footprint)
    }

    /** Only pointers of the lists, and the model, were written. */
    twostate predicate BlocksKept()
      reads this, pcbs.Values, threads.Values
    {
      && unchanged(`pcbs, `threads, `tree, `nextPid, `nextTid, `owner)
      && (forall p :: p in pcbs ==> unchanged(pcbs[p])) && forall t :: t in threads ==> unchanged(threads[t])
    }

    /** Fewer stale links, more clean threads. */
    twostate lemma CleanKept()
      requires old(AllClean(model.threads, children.stale)) && children.stale <= old(children.stale)
      ensures AllClean(old(model).threads, children.stale)
    {
      forall t
        ensures CleanAt(old(model).threads, children.stale, t)
      {
        assert old(CleanAt(model.threads, children.stale, t));
      }
    }

    twostate lemma ThreadsKept()
      requires old(TcbsAre(model.threads)) && unchanged(`pcbs, `threads)
               && forall t :: t in threads ==> unchanged(threads[t])
      ensures TcbsAre(old(model).threads)
    {
      forall t | t in threads
        ensures ThreadAt(old(model).threads, t)
      {
        assert old(ThreadAt(model.threads, t));
      }
    }

    /** At most one block was written, and it has the fields of `k`. */
    twostate lemma FieldsKept(b: Pcb, new k: Task)
      requires old(PcbsAre(model.tasks)) && unchanged(`pcbs, `threads) && old(Known(b)) && BlocksOk(Built())
      requires forall p :: p in pcbs && pcbs[p] != b ==> unchanged(pcbs[p])
      requires FieldsOk(b, k)
      ensures PcbsAre(old(model).tasks[b.pid := k])
    {
      forall p | p in pcbs
        ensures FieldsAt(old(model).tasks[b.pid := k], p)
      {
        assert old(FieldsAt(model.tasks, p)) && PcbOk(Built(), p);
      }
    }

    /** The tasks have the fields they had. */
    twostate lemma FieldsFollow(new us: map<Pid, Task>)
      requires old(PcbsAre(model.tasks)) && unchanged(`pcbs, `threads) && forall p :: p in pcbs ==> unchanged(pcbs[p])
      requires us.Keys == old(model).tasks.Keys && forall p :: p in us ==> SameFields(us[p], old(model).tasks[p])
      ensures PcbsAre(us)
    {
      forall p | p in pcbs
        ensures FieldsAt(us, p)
      {
        assert old(FieldsAt(model.tasks, p));
      }
    }

    /** Some lists have changed, and nothing else. */
    twostate lemma ListsWritten()
      requires old(Ready()) && Covered() && Linked() && OnlyLists() && Built() == old(Built())
      requires model == old(model).(tasks := model.tasks) && model.tasks.Keys == old(model).tasks.Keys
      requires forall p :: p in model.tasks ==> SameFields(model.tasks[p], old(model).tasks[p])
      requires AllLists(Held(), pcbs, model.tasks) && AllClean(model.threads, children.stale)
      ensures Ready()
    {
      assert old(Agrees(model));
      FieldsFollow(model.tasks);
      ThreadsKept();
      assert Agrees(model);
    }

    /** One list of one task has changed. */
    twostate lemma ListWritten(b: Pcb, new kind: Kind, new xs: seq<nat>)
      requires old(Ready()) && Covered() && Linked() && OnlyLists() && old(Known(b)) && b.pid in old(model).tasks
      requires Built() == old(Built()) && Held() == WithContents(old(Held()), kind, Head(b, kind), xs)
      requires children.stale == old(children.stale)
      requires model == WithTask(old(model), b.pid, WithList(old(model).tasks[b.pid], kind, xs))
      ensures Ready()
    {
      Followed(b, kind, xs);
      CleanStays();
      ListsWritten();
    }

    twostate lemma Followed(b: Pcb, new kind: Kind, new xs: seq<nat>)
      requires old(Ready()) && unchanged(`pcbs, `owner) && old(Known(b)) && b.pid in old(model).tasks
      requires Held() == WithContents(old(Held()), kind, Head(b, kind), xs)
      ensures AllLists(Held(), pcbs, old(model).tasks[b.pid := WithList(old(model).tasks[b.pid], kind, xs)])
    {
      assert old(Agrees(model));
      ListFollows(old(Built()), old(Held()), old(model).tasks, b.pid, kind, xs);
    }

    twostate lemma CleanStays()
      requires old(Ready()) && children.stale <= old(children.stale)
      ensures AllClean(old(model).threads, children.stale)
    {
      assert old(Agrees(model));
      CleanKept();
    }

    /** One task has new fields. */
    twostate lemma FieldsWritten(b: Pcb)
      requires old(Ready()) && Covered() && Linked()
               && unchanged(`pcbs, `threads, `tree, `nextPid, `nextTid, `owner, `footprint)
      requires Built() == old(Built()) && Held() == old(Held()) && children.stale == old(children.stale)
               && old(Known(b))
      requires forall p :: p in pcbs && pcbs[p] != b ==> unchanged(pcbs[p])
      requires forall t :: t in threads ==> unchanged(threads[t])
      requires b.pid in old(model).tasks && b.pid in model.tasks
               && model == WithTask(old(model), b.pid, model.tasks[b.pid])
      requires FieldsOk(b, model.tasks[b.pid]) && SameLists(old(model).tasks[b.pid], model.tasks[b.pid])
      ensures Ready()
    {
      assert old(Agrees(model));
      ListsStay(Built(), Held(), old(model).tasks, b.pid, model.tasks[b.pid]);
      FieldsKept(b, model.tasks[b.pid]);
      ThreadsKept();
      assert Agrees(model);
    }

    /** One thread has new fields. */
    twostate lemma ThreadWritten(b: Tcb)
      requires old(Ready()) && Covered() && Linked()
               && unchanged(`pcbs, `threads, `tree, `nextPid, `nextTid, `owner, `footprint)
      requires Built() == old(Built()) && Held() == old(Held()) && children.stale == old(children.stale) && old(Mine(b))
      requires forall p :: p in pcbs ==> unchanged(pcbs[p])
      requires forall t :: t in threads && threads[t] != b ==> unchanged(threads[t])
      requires b.tid in model.threads
               && model == old(model).(threads := old(model).threads[b.tid := model.threads[b.tid]])
      requires ThreadOk(b, model.threads[b.tid]) && Clean(model.threads[b.tid], children.stale)
      ensures Ready()
    {
      assert old(Agrees(model));
      PcbsKept();
      forall t | t in threads
        ensures ThreadAt(model.threads, t)
      {
        assert old(ThreadAt(model.threads, t)) && TcbOk(Built(), t);
      }
      forall t
        ensures CleanAt(model.threads, children.stale, t)
      {
        assert old(CleanAt(model.threads, children.stale, t));
      }
      assert Agrees(model);
    }

    twostate lemma PcbsKept()
      requires old(PcbsAre(model.tasks)) && unchanged(`pcbs, `threads) && forall p :: p in pcbs ==> unchanged(pcbs[p])
      ensures PcbsAre(old(model).tasks)
    {
      forall p | p in pcbs
        ensures FieldsAt(old(model).tasks, p)
      {
        assert old(FieldsAt(model.tasks, p));
      }
    }

    // ------------------------------------------------------------------ fields

    method SetMux(b: Pcb, who: Option<Tid>)
      requires Ready() && Known(b)
      modifies footprint
      ensures Stays() && b.pid in old(model).tasks
      ensures model == WithTask(old(model), b.pid, old(model).tasks[b.pid].(mux := who))
    {
      PcbIs(b);
      assert b in footprint by { assert Covers(footprint); }
      ghost var k := model.tasks[b.pid];
      b.SetMux(who);
      assert Linked();
      model := WithTask(model, b.pid, k.(mux := who));
      FieldsWritten(b);
    }

    method SetLast(b: Pcb, last: Tcb)
      requires Ready() && Known(b) && Mine(last)
      modifies footprint
      ensures Stays() && b.pid in old(model).tasks
      ensures model == WithTask(old(model), b.pid, old(model).tasks[b.pid].(last := Some(last.tid)))
    {
      PcbIs(b);
      assert b in footprint by { assert Covers(footprint); }
      ghost var k := model.tasks[b.pid];
      b.SetLast(last);
      assert Linked();
      model := WithTask(model, b.pid, k.(last := Some(last.tid)));
      FieldsWritten(b);
    }

    /** num_active_child_tasks and its like */
    method Count(b: Pcb, kind: Kind, d: int)
      requires Ready() && Known(b)
      modifies footprint
      ensures Stays() && b.pid in old(model).tasks
      ensures model == WithTask(old(model), b.pid, Counted(old(model).tasks[b.pid], kind, d))
    {
      PcbIs(b);
      ghost var k := model.tasks[b.pid];
      assert b in footprint by { assert Covers(footprint); }
      b.Count(kind, d);
      assert Linked();
      assert FieldsOk(b, Counted(k, kind, d));
      model := WithTask(model, b.pid, Counted(k, kind, d));
      FieldsWritten(b);
    }

    method CountTotal(b: Pcb)
      requires Ready() && Known(b)
      modifies footprint
      ensures Stays() && b.pid in old(model).tasks
      ensures var k := old(model).tasks[b.pid]; model == WithTask(old(model), b.pid, OneMore(k))
    {
      PcbIs(b);
      ghost var k := model.tasks[b.pid];
      assert b in footprint by { assert Covers(footprint); }
      b.CountTotal();
      assert Linked();
      model := WithTask(model, b.pid, OneMore(k));
      FieldsWritten(b);
    }

    method SetPc(b: Tcb, pc: Pc)
      requires Ready() && Mine(b) && b.tid in model.threads && Clean(model.threads[b.tid].(pc := pc), children.stale)
      modifies footprint
      ensures Stays() && model == WithPc(old(model), b.tid, pc)
    {
      TcbIs(b);
      assert b in footprint by { assert Covers(footprint); }
      b.pc := pc;
      assert Linked();
      model := WithPc(model, b.tid, pc);
      ThreadWritten(b);
    }

    method SetStatus(b: Tcb, status: Status)
      requires Ready() && Mine(b) && b.tid in model.threads
      modifies footprint
      ensures Stays()
      ensures model == old(model).(threads := old(model).threads[b.tid := old(model).threads[b.tid].(status := status)])
    {
      TcbIs(b);
      CleanIs(b);
      assert b in footprint by { assert Covers(footprint); }
      b.status := status;
      assert Linked();
      model := model.(threads := model.threads[b.tid := model.threads[b.tid].(status := status)]);
      ThreadWritten(b);
    }

    method SetThread(b: Tcb, status: Status, pc: Pc)
      requires Ready() && Mine(b) && b.tid in model.threads
      requires Clean(model.threads[b.tid].(status := status, pc := pc), children.stale)
      modifies footprint
      ensures Stays()
      ensures var th := old(model).threads[b.tid];
              model == old(model).(threads := old(model).threads[b.tid := th.(status := status, pc := pc)])
    {
      SetStatus(b, status);
      SetPc(b, pc);
    }

    method SetCollected(b: Tcb, c: Pcb?)
      requires Ready() && Mine(b) && b.tid in model.threads && (c != null ==> Known(c))
      requires Clean(model.threads[b.tid].(collected := Named(c)), children.stale)
      modifies footprint
      ensures Stays()
      ensures var th := old(model).threads[b.tid];
              model == old(model).(threads := old(model).threads[b.tid := th.(collected := Named(c))])
    {
      TcbIs(b);
      assert b in footprint by { assert Covers(footprint); }
      b.collected := c;
      assert Linked();
      model := model.(threads := model.threads[b.tid := model.threads[b.tid].(collected := Named(c))]);
      ThreadWritten(b);
    }

    method SetTree(who: Option<Tid>)
      requires Ready()
      modifies footprint
      ensures Stays() && model == old(model).(tree := who)
    {
      tree := who;
      model := model.(tree := who);
      TreeWritten();
    }

    twostate lemma TreeWritten()
      requires old(Ready()) && Covered() && Linked()
               && unchanged(`pcbs, `threads, `nextPid, `nextTid, `owner, `footprint)
      requires Built() == old(Built()) && Held() == old(Held()) && children.stale == old(children.stale)
      requires forall p :: p in pcbs ==> unchanged(pcbs[p])
      requires forall t :: t in threads ==> unchanged(threads[t])
      requires model == old(model).(tree := tree)
      ensures Ready()
    {
      assert old(Agrees(model));
      PcbsKept();
      ThreadsKept();
      assert Agrees(model);
    }

    // ------------------------------------------------------------------ lists

    function LinkOf(kind: Kind): Links {
      match kind
      case Active => children
      case Vanished => children
      case WaitingThreads => waiters
      case Threads => members
      case Zombies => members
    }

    /** The other links were not written. */
    twostate predicate OthersKept(l: Links)
      reads children, tasks, members, waiters
    {
      && (l != children ==> unchanged(children)) && (l != tasks ==> unchanged(tasks))
      && (l != members ==> unchanged(members)) && (l != waiters ==> unchanged(waiters))
    }

    predicate OneOf(l: Links) {
      l == children || l == tasks || l == members || l == waiters
    }

    /** Of the four links only l was written, and it is in order. */
    twostate lemma LinkWritten(l: Links)
      requires old(Covered()) && old(Linked()) && OneOf(l) && unchanged(`pcbs, `threads, `footprint)
      requires l.Valid() && l.Frame() <= old(l.Frame()) && (l == tasks ==> l.lists.Keys == {pcbList})
      requires l == children || l.stale <= old(l.stale)
      requires l != children ==> children.Untouched()
      requires l != tasks ==> tasks.Untouched()
      requires l != members ==> members.Untouched()
      requires l != waiters ==> waiters.Untouched()
      ensures Covered() && Linked()
    {
      assert old(LinksHold(children.lists)) && old(Covers(footprint));
      if l != children { children.StaysValid(); }
      if l != tasks { tasks.StaysValid(); }
      if l != members { members.StaysValid(); }
      if l != waiters { waiters.StaysValid(); }
      assert LinksHold(children.lists) && Covers(footprint);
    }

    lemma LinkApart(l: Links)
      requires Covered() && Linked() && OneOf(l)
      ensures l.Valid() && l.Frame() <= footprint && this in footprint && tasks.lists.Keys == {pcbList}
      ensures l != children ==> l.Frame() !! children.Frame()
      ensures l != tasks ==> l.Frame() !! tasks.Frame()
      ensures l != members ==> l.Frame() !! members.Frame()
      ensures l != waiters ==> l.Frame() !! waiters.Frame()
    {
      assert LinksHold(children.lists) && Covers(footprint);
    }

    /** The four links are different objects. */
    lemma LinksDiffer()
      requires Linked()
      ensures children != tasks && children != members && children != waiters
      ensures tasks != members && tasks != waiters && members != waiters
    {
      assert LinksHold(children.lists);
    }

    lemma Reached()
      requires Covered()
      ensures {children, children.heap, members, members.heap, waiters, waiters.heap, tasks, tasks.heap} <= footprint
    {
      assert Covers(footprint);
    }

    method Insert(l: Links, q: Queue, e: Elem)
      requires Covered() && Linked() && OneOf(l)
      requires q in l.lists && l.KnownElem(e) && !l.On(e.pid) && e.pid !in l.stale
      modifies footprint
      ensures Covered() && Linked() && l.lists == old(l.lists)[q := old(l.lists)[q] + [e.pid]]
      ensures l.elems == old(l.elems) && l.stale == old(l.stale) && OthersKept(l) && OnlyLists() && model == old(model)
    {
      LinkApart(l);
      assert q in l.heap.queues by { assert l.Holds(l.lists); }
      l.InsertTail(q, e);
      LinkWritten(l);
    }

    method Delete(l: Links, q: Queue, e: Elem)
      requires Covered() && Linked() && OneOf(l)
      requires q in l.lists && l.KnownElem(e) && e.pid in l.lists[q]
      modifies footprint
      ensures Covered() && Linked() && !l.On(e.pid) && l.lists == old(l.lists)[q := Without(old(l.lists)[q], e.pid)]
      ensures l.elems == old(l.elems) && l.stale == old(l.stale) && OthersKept(l) && OnlyLists() && model == old(model)
    {
      LinkApart(l);
      assert q in l.heap.queues by { assert l.Holds(l.lists); }
      l.Remove(q, e);
      LinkWritten(l);
    }

    /** What the change of one list is to the contents. */
    twostate lemma HeldMoves(b: Pcb, new kind: Kind, new xs: seq<nat>)
      requires Head(b, kind) in old(LinkOf(kind).lists) && unchanged(`pcbs, `threads, `owner)
               && OthersKept(LinkOf(kind))
      requires Linked() && LinkOf(kind).lists == old(LinkOf(kind).lists)[Head(b, kind) := xs]
               && LinkOf(kind).elems == old(LinkOf(kind).elems)
      ensures Built() == old(Built()) && Held() == WithContents(old(Held()), kind, Head(b, kind), xs)
    {
      assert LinksHold(children.lists);
    }

    method Clear(q: Queue)
      requires Covered() && Linked() && q in children.lists
      modifies footprint
      ensures Covered() && Linked() && children.lists == old(children.lists)[q := []]
              && children.elems == old(children.elems)
      ensures children.stale == old(children.stale) + old(set n | n in children.lists[q])
      ensures OthersKept(children) && OnlyLists() && model == old(model)
    {
      LinkApart(children);
      assert q in children.heap.queues by { assert children.Holds(children.lists); }
      children.InitHead(q);
      LinkWritten(children);
    }

    method Concat(q: Queue, r: Queue)
      requires Covered() && Linked() && q in children.lists && r in children.lists && q != r
      modifies footprint
      ensures Covered() && Linked() && children.elems == old(children.elems) && children.stale == old(children.stale)
      ensures children.lists == old(children.lists)[q := old(children.lists)[q] + old(children.lists)[r]][r := []]
      ensures OthersKept(children) && OnlyLists() && model == old(model)
      ensures unchanged(tasks) && unchanged(members) && unchanged(waiters)
    {
      LinkApart(children);
      LinksDiffer();
      assert {q, r} <= children.heap.queues by { assert children.Holds(children.lists); }
      children.Append(q, r);
      LinkWritten(children);
    }

    method PutOn(b: Pcb, kind: Kind, e: Elem)
      requires Covered() && Linked() && Head(b, kind) in LinkOf(kind).lists
      requires LinkOf(kind).KnownElem(e) && !LinkOf(kind).On(e.pid) && e.pid !in LinkOf(kind).stale
      modifies footprint
      ensures Covered() && Linked() && Built() == old(Built()) && children.stale == old(children.stale)
              && OnlyLists() && model == old(model)
      ensures Held() == WithContents(old(Held()), kind, Head(b, kind), old(LinkOf(kind).lists)[Head(b, kind)] + [e.pid])
    {
      Insert(LinkOf(kind), Head(b, kind), e);
      HeldMoves(b, kind, LinkOf(kind).lists[Head(b, kind)]);
    }

    method PutOff(b: Pcb, kind: Kind, e: Elem)
      requires Covered() && Linked() && Head(b, kind) in LinkOf(kind).lists
      requires LinkOf(kind).KnownElem(e) && e.pid in LinkOf(kind).lists[Head(b, kind)]
      modifies footprint
      ensures Covered() && Linked() && Built() == old(Built()) && children.stale == old(children.stale)
              && OnlyLists() && model == old(model)
      ensures Held() == WithContents(old(Held()), kind, Head(b, kind), Without(old(LinkOf(kind).lists)[Head(b, kind)], e.pid))
      ensures !LinkOf(kind).On(e.pid)
    {
      Delete(LinkOf(kind), Head(b, kind), e);
      HeldMoves(b, kind, LinkOf(kind).lists[Head(b, kind)]);
    }

    /** Q_INSERT_TAIL on a list of b */
    method Push(b: Pcb, kind: Kind, e: Elem)
      requires Ready() && Known(b) && LinkOf(kind).KnownElem(e) && !LinkOf(kind).On(e.pid)
               && e.pid !in LinkOf(kind).stale
      modifies footprint
      ensures Stays() && b.pid in old(model).tasks
      ensures var k := old(model).tasks[b.pid];
              model == WithTask(old(model), b.pid, WithList(k, kind, ListOf(k, kind) + [e.pid]))
    {
      HeadIs(b, kind);
      ghost var k := model.tasks[b.pid];
      PutOn(b, kind, e);
      model := WithTask(model, b.pid, WithList(k, kind, ListOf(k, kind) + [e.pid]));
      ListWritten(b, kind, ListOf(k, kind) + [e.pid]);
    }

    /** Q_REMOVE from a list of b */
    method Take(b: Pcb, kind: Kind, e: Elem)
      requires Ready() && Known(b) && LinkOf(kind).KnownElem(e) && b.pid in model.tasks
               && e.pid in ListOf(model.tasks[b.pid], kind)
      modifies footprint
      ensures Stays() && !LinkOf(kind).On(e.pid)
      ensures var k := old(model).tasks[b.pid];
              model == WithTask(old(model), b.pid, WithList(k, kind, Without(ListOf(k, kind), e.pid)))
    {
      HeadIs(b, kind);
      ghost var k := model.tasks[b.pid];
      PutOff(b, kind, e);
      model := WithTask(model, b.pid, WithList(k, kind, Without(ListOf(k, kind), e.pid)));
      ListWritten(b, kind, Without(ListOf(k, kind), e.pid));
    }

    lemma HeadIs(b: Pcb, kind: Kind)
      requires Ready() && Known(b)
      ensures b.pid in model.tasks && Head(b, kind) in LinkOf(kind).lists
      ensures LinkOf(kind).lists[Head(b, kind)] == ListOf(model.tasks[b.pid], kind)
    {
      PcbLists(b);
    }

    /** Q_GET_FRONT */
    method FrontOf(b: Pcb, kind: Kind) returns (e: Elem?)
      requires Ready() && Known(b)
      ensures Ready() && unchanged(this) && b.pid in model.tasks
      ensures var xs := ListOf(model.tasks[b.pid], kind);
              if xs == [] then e == null else e != null && LinkOf(kind).KnownElem(e) && e.pid == xs[0]
    {
      HeadIs(b, kind);
      LinkApart(LinkOf(kind));
      e := LinkOf(kind).Front(Head(b, kind));
    }

    /** Q_GET_FRONT and Q_GET_TAIL of a list */
    lemma EndsOf(b: Pcb, kind: Kind)
      requires Ready() && Known(b)
      ensures b.pid in model.tasks
      ensures var q, xs := Head(b, kind), ListOf(model.tasks[b.pid], kind);
              if xs == [] then q.front == q.tail == null
              else q.front != null && LinkOf(kind).KnownElem(q.front) && q.front.pid == xs[0]
                   && q.tail != null && LinkOf(kind).KnownElem(q.tail) && q.tail.pid == xs[|xs| - 1]
    {
      HeadIs(b, kind);
      LinkApart(LinkOf(kind));
      LinkOf(kind).EndsAre(Head(b, kind));
    }

    /** find_pcb */
    method FindPcb(p: Pid) returns (b: Pcb?)
      requires Ready()
      ensures Ready() && unchanged(this)
      ensures if p in model.tasks && model.tasks[p].listed then b != null && Known(b) && b.pid == p else b == null
    {
      ListedIs(p);
      LinkApart(tasks);
      var e := tasks.Find(pcbList, p);
      if e == null {
        return null;
      }
      PcbAt(p);
      b := pcbs[p];
    }

    /** A task is on pcb_list when the model says it is listed. */
    lemma ListedIs(p: Pid)
      requires Ready()
      ensures pcbList in tasks.lists && (p in tasks.lists[pcbList] <==> p in model.tasks && model.tasks[p].listed)
      ensures p in model.tasks ==> p in pcbs
    {
      assert Agrees(model) && LinksHold(children.lists) && tasks.Holds(tasks.lists) && tasks.QueueOk(pcbList);
      assert tasks.elems == Built().taskLinks;
      if p in pcbs {
        assert ListsAt(Held(), pcbs, model.tasks, p) && PcbOk(Built(), p);
      }
      if p in tasks.lists[pcbList] {
        var i :| 0 <= i < |tasks.lists[pcbList]| && tasks.lists[pcbList][i] == p;
      }
    }

    /** Who is on a list of children. */
    lemma ChildOn(n: nat)
      requires Ready()
      ensures children.On(n) <==> OnSomeList(model, n)
    {
      assert Agrees(model);
      if children.On(n) {
        var q :| q in children.lists && n in children.lists[q];
        HeadOwned(Built(), Held(), model.tasks, q);
      }
      if OnSomeList(model, n) {
        var p :| p in model.tasks && (n in model.tasks[p].active || n in model.tasks[p].vanished);
        assert ListsAt(Held(), pcbs, model.tasks, p);
        assert n in children.lists[pcbs[p].active] || n in children.lists[pcbs[p].vanished];
      }
    }

    lemma MemberOff(n: nat)
      requires Ready()
      requires forall p :: p in model.tasks ==> n !in model.tasks[p].threads && n !in model.tasks[p].zombies
      ensures !members.On(n)
    {
      assert Agrees(model);
      forall q | q in members.lists
        ensures n !in members.lists[q]
      {
        HeadOwned(Built(), Held(), model.tasks, q);
      }
    }

    lemma WaiterOff(n: nat)
      requires Ready() && forall p :: p in model.tasks ==> n !in model.tasks[p].waiting
      ensures !waiters.On(n)
    {
      assert Agrees(model);
      forall q | q in waiters.lists
        ensures n !in waiters.lists[q]
      {
        HeadOwned(Built(), Held(), model.tasks, q);
      }
    }

    // ------------------------------------------------------------------ lists that are emptied or joined

    /** Stale links were initialised again, and nothing else was written. */
    twostate lemma LinksCleaned()
      requires old(Ready()) && Covered() && Linked() && OnlyLists() && model == old(model)
      requires Built() == old(Built()) && Held() == old(Held()) && children.stale <= old(children.stale)
      ensures Ready()
    {
      assert old(Agrees(model));
      CleanKept();
      PcbsKept();
      ThreadsKept();
      assert Agrees(model);
    }

    /** Q_INIT_HEAD on the active children: their links keep pointers that mean nothing. */
    method ForgetActive(b: Pcb)
      requires Ready() && Known(b) && b.pid in model.tasks
      requires AllClean(model.threads, children.stale + set c | c in model.tasks[b.pid].active)
      modifies footprint
      ensures Remains() && model == WithTask(old(model), b.pid, old(model).tasks[b.pid].(active := []))
    {
      HeadIs(b, Active);
      Clear(b.active);
      model := WithTask(model, b.pid, WithList(model.tasks[b.pid], Active, []));
      HeldMoves(b, Active, []);
      Followed(b, Active, []);
      ListsWritten();
    }

    /** Q_INIT_ELEM on the link of a task that is on no list of children */
    method ResetChildLink(b: Pcb)
      requires Ready() && Known(b) && !children.On(b.pid)
      modifies footprint
      ensures Remains() && model == old(model) && children.stale == old(children.stale) - {b.pid}
    {
      assert children.KnownElem(b.childLink) && b.childLink.pid == b.pid by { PcbLists(b); }
      LinkApart(children);
      assert b.childLink in children.heap.elems by { assert children.Holds(children.lists) && children.ElemOk(b.pid); }
      children.InitElem(b.childLink);
      LinkWritten(children);
      LinksCleaned();
    }

    /** Q_APPEND of the vanished children of b to those of a */
    method AppendVanished(a: Pcb, b: Pcb)
      requires Ready() && Known(a) && Known(b) && a != b && a.pid in model.tasks && b.pid in model.tasks
      modifies footprint
      ensures Stays() && model == old(model).(tasks := Joined(old(model).tasks, a.pid, b.pid))
    {
      HeadIs(a, Vanished);
      HeadIs(b, Vanished);
      HeadsApart(a, b);
      Concat(a.vanished, b.vanished);
      model := model.(tasks := Joined(model.tasks, a.pid, b.pid));
      JoinedLists(a, b);
      CleanStays();
      ListsWritten();
    }

    lemma HeadsApart(a: Pcb, b: Pcb)
      requires Ready() && Known(a) && Known(b) && a != b
      ensures a.vanished != b.vanished && a.pid != b.pid
    {
      PcbLists(a);
      PcbLists(b);
    }

    twostate lemma JoinedLists(a: Pcb, new b: Pcb)
      requires old(Ready()) && unchanged(`pcbs, `owner) && old(Known(a)) && b in old(pcbs.Values) && old(Known(b))
               && a.pid != b.pid
      requires a.pid in old(model).tasks && b.pid in old(model).tasks
      requires var xs := old(model).tasks[a.pid].vanished + old(model).tasks[b.pid].vanished;
               children.lists == old(children.lists)[a.vanished := xs][b.vanished := []]
      requires unchanged(tasks) && unchanged(members) && unchanged(waiters)
      ensures AllLists(Held(), pcbs, Joined(old(model).tasks, a.pid, b.pid))
    {
      assert old(Agrees(model));
      ghost var ts := old(model).tasks;
      ghost var xs := ts[a.pid].vanished + ts[b.pid].vanished;
      ListFollows(old(Built()), old(Held()), ts, a.pid, Vanished, xs);
      ghost var us := ts[a.pid := WithList(ts[a.pid], Vanished, xs)];
      ListFollows(old(Built()), WithContents(old(Held()), Vanished, a.vanished, xs), us, b.pid, Vanished, []);
      assert us[b.pid := WithList(us[b.pid], Vanished, [])] == Joined(ts, a.pid, b.pid);
    }

    // ------------------------------------------------------------------ control blocks come and go

    /** One object was added to link l. */
    twostate lemma LinkGrown(l: Links, new o: object)
      requires old(Covered()) && old(Linked()) && OneOf(l) && unchanged(`pcbs, `threads)
      requires footprint == old(footprint) + {o} && o !in old(footprint)
      requires l.Valid() && l.Frame() == old(l.Frame()) + {o} && (l == tasks ==> l.lists == old(l.lists))
               && l.stale == old(l.stale)
      requires l != children ==> children.Untouched()
      requires l != tasks ==> tasks.Untouched()
      requires l != members ==> members.Untouched()
      requires l != waiters ==> waiters.Untouched()
      ensures Covered() && Linked()
    {
      assert old(LinksHold(children.lists)) && old(Covers(footprint));
      if l != children { children.StaysValid(); }
      if l != tasks { tasks.StaysValid(); }
      if l != members { members.StaysValid(); }
      if l != waiters { waiters.StaysValid(); }
      assert LinksHold(children.lists) && Covers(footprint);
    }

    ghost method AddHead(l: Links, q: Queue)
      requires Covered() && Linked() && OneOf(l) && l != tasks && q !in footprint && q.Valid() && q.Elems == []
      modifies this`footprint, l, l.heap
      ensures Covered() && Linked() && footprint == old(footprint) + {q}
      ensures q !in old(l.lists) && l.lists == old(l.lists)[q := []] && l.elems == old(l.elems)
              && l.stale == old(l.stale)
      ensures OthersKept(l) && BlocksKept() && model == old(model)
    {
      LinkApart(l);
      assert q !in l.lists by { assert l.Holds(l.lists); }
      l.AddQueue(q);
      footprint := footprint + {q};
      LinkGrown(l, q);
    }

    ghost method AddLink(l: Links, e: Elem)
      requires Covered() && Linked() && OneOf(l) && e !in footprint && e.Detached() && e.pid !in l.elems
      modifies this`footprint, l, l.heap
      ensures Covered() && Linked() && footprint == old(footprint) + {e}
      ensures l.lists == old(l.lists) && l.elems == old(l.elems)[e.pid := e] && l.stale == old(l.stale)
              && e.pid !in l.stale
      ensures OthersKept(l) && BlocksKept() && model == old(model)
    {
      LinkApart(l);
      l.AddElem(e);
      footprint := footprint + {e};
      LinkGrown(l, e);
    }

    /** The heads and links of a new block are put on the four links ... */
    ghost method LinkChildParts(b: Pcb)
      requires Covered() && Linked() && b.pid !in children.elems && b.Unlinked()
               && {b.childLink, b.active, b.vanished} !! footprint
      modifies this`footprint, children, children.heap
      ensures Covered() && Linked() && footprint == old(footprint) + {b.childLink, b.active, b.vanished}
      ensures children.lists == old(children.lists)[b.active := []][b.vanished := []]
              && children.stale == old(children.stale)
      ensures children.elems == old(children.elems)[b.pid := b.childLink]
      ensures b.pid !in children.stale
      ensures OthersKept(children) && BlocksKept() && model == old(model)
    {
      LinksDiffer();
      AddLink(children, b.childLink);
      AddHead(children, b.active);
      AddHead(children, b.vanished);
    }

    ghost method LinkThreadParts(b: Pcb)
      requires Covered() && Linked() && b.Unlinked() && {b.threads, b.zombies} !! footprint
      modifies this`footprint, members, members.heap
      ensures Covered() && Linked() && footprint == old(footprint) + {b.threads, b.zombies}
      ensures members.lists == old(members.lists)[b.threads := []][b.zombies := []]
              && members.elems == old(members.elems)
      ensures OthersKept(members) && BlocksKept() && model == old(model)
    {
      LinksDiffer();
      AddHead(members, b.threads);
      AddHead(members, b.zombies);
    }

    /** ... and the block on pcb_list. */
    method ListPcb(b: Pcb)
      requires Covered() && Linked() && b.pid !in tasks.elems && b.taskLink.Detached() && b.taskLink.pid == b.pid
               && b.taskLink !in footprint
      modifies footprint, b.taskLink
      ensures Covered() && Linked() && footprint == old(footprint) + {b.taskLink}
      ensures pcbList in old(tasks.lists)
              && tasks.lists == old(tasks.lists)[pcbList := old(tasks.lists[pcbList]) + [b.pid]]
      ensures tasks.elems == old(tasks.elems)[b.pid := b.taskLink]
      ensures unchanged(children) && unchanged(members) && unchanged(waiters) && BlocksKept() && model == old(model)
    {
      LinkApart(tasks);
      LinksDiffer();
      assert pcbList in tasks.lists && tasks.stale == {} by { assert LinksHold(children.lists); }
      if tasks.On(b.pid) {
        tasks.OnKnown(b.pid);
        assert false;
      }
      AddLink(tasks, b.taskLink);
      Insert(tasks, pcbList, b.taskLink);
    }

    /** Nothing refers to a task p that is not there. */
    ghost predicate Forgotten(p: Pid)
      reads this`model
    {
      && p !in model.tasks
      && forall t :: t in model.threads ==> model.threads[t].task != p && model.threads[t].collected != Some(p)
    }

    ghost method LinkWaitParts(b: Pcb)
      requires Covered() && Linked() && b.Unlinked() && {b.waiting, b.threads, b.zombies} !! footprint
      modifies this`footprint, members, members.heap, waiters, waiters.heap
      ensures Covered() && Linked() && footprint == old(footprint) + {b.threads, b.zombies, b.waiting}
      ensures members.lists == old(members.lists)[b.threads := []][b.zombies := []]
              && members.elems == old(members.elems)
      ensures waiters.lists == old(waiters.lists)[b.waiting := []] && waiters.elems == old(waiters.elems)
      ensures unchanged(children) && unchanged(tasks) && BlocksKept() && model == old(model)
    {
      LinksDiffer();
      LinkThreadParts(b);
      AddHead(waiters, b.waiting);
    }

    ghost method LinkParts(b: Pcb)
      requires Covered() && Linked() && b.pid !in children.elems && b.Unlinked() && b.Parts() !! footprint
      modifies this`footprint, children, children.heap, members, members.heap, waiters, waiters.heap
      ensures Covered() && Linked()
              && footprint == old(footprint) + {b.childLink, b.active, b.vanished} + {b.threads, b.zombies, b.waiting}
      ensures children.lists == old(children.lists)[b.active := []][b.vanished := []]
              && children.stale == old(children.stale)
      ensures children.elems == old(children.elems)[b.pid := b.childLink] && b.pid !in children.stale
      ensures members.lists == old(members.lists)[b.threads := []][b.zombies := []]
              && members.elems == old(members.elems)
      ensures waiters.lists == old(waiters.lists)[b.waiting := []] && waiters.elems == old(waiters.elems)
      ensures unchanged(tasks) && BlocksKept() && model == old(model)
    {
      LinksDiffer();
      LinkChildParts(b);
      LinkWaitParts(b);
    }

    method LinkPcb(b: Pcb)
      requires Covered() && Linked() && b.pid !in children.elems && b.pid !in tasks.elems && b.Unlinked()
               && b.Parts() !! footprint
      modifies footprint, b.Parts()
      ensures Covered() && Linked() && footprint == old(footprint) + b.Parts()
      ensures children.lists == old(children.lists)[b.active := []][b.vanished := []]
              && children.stale == old(children.stale)
      ensures children.elems == old(children.elems)[b.pid := b.childLink] && b.pid !in children.stale
      ensures members.lists == old(members.lists)[b.threads := []][b.zombies := []]
              && members.elems == old(members.elems)
      ensures waiters.lists == old(waiters.lists)[b.waiting := []] && waiters.elems == old(waiters.elems)
      ensures pcbList in old(tasks.lists)
              && tasks.lists == old(tasks.lists)[pcbList := old(tasks.lists[pcbList]) + [b.pid]]
      ensures tasks.elems == old(tasks.elems)[b.pid := b.taskLink]
      ensures BlocksKept() && model == old(model)
    {
      Reached();
      LinkParts(b);
      ListPcb(b);
    }

    method EnterPcb(b: Pcb)
      requires Covered() && Linked() && b !in footprint
      modifies this
      ensures Covered() && Linked() && footprint == old(footprint) + {b}
      ensures pcbs == old(pcbs)[b.pid := b] && owner == old(owner) + b.Owners() && nextPid == old(nextPid) + 1
      ensures unchanged(`threads, `tree, `nextTid)
      ensures model == WithTask(old(model), b.pid, NewTask(b.parentPid)).(nextPid := b.pid + 1)
    {
      assert Covers(footprint);
      pcbs := pcbs[b.pid := b];
      owner := owner + b.Owners();
      nextPid := nextPid + 1;
      footprint := footprint + {b};
      model := WithTask(model, b.pid, NewTask(b.parentPid)).(nextPid := b.pid + 1);
      assert Covers(footprint);
    }

    /** create_pcb: an allocated block gets a place on every link and on pcb_list. */
    method AddPcb(b: Pcb)
      requires Ready() && b.pid == nextPid && Forgotten(b.pid) && (b.pid == initPcb.pid ==> b == initPcb)
      requires b.Unlinked() && b.Cleared() && b.Parts() !! footprint && b !in footprint
      modifies footprint, b.Parts()
      ensures Ready() && footprint == old(footprint) + b.Parts() + {b} && pcbs == old(pcbs)[b.pid := b]
              && threads == old(threads)
      ensures model == WithTask(old(model), b.pid, NewTask(b.parentPid)).(nextPid := b.pid + 1)
      ensures children.stale == old(children.stale) && b.pid !in children.stale
    {
      NotLinked(b.pid);
      HeadsNew(b);
      LinkPcb(b);
      EnterPcb(b);
      PcbBuilt(b);
      PcbAdded(b);
    }

    lemma HeadsNew(b: Pcb)
      requires Covered() && Linked() && b.Parts() !! footprint
      ensures b.Heads() !! children.lists.Keys + members.lists.Keys + waiters.lists.Keys
    {
      LinkApart(children);
      LinkApart(members);
      LinkApart(waiters);
      assert children.Holds(children.lists) && members.Holds(members.lists) && waiters.Holds(waiters.lists);
      forall q | q in b.Heads()
        ensures q !in children.lists && q !in members.lists && q !in waiters.lists
      {
        assert q in b.Parts();
      }
    }

    twostate lemma PcbBuilt(new b: Pcb)
      requires pcbs == old(pcbs)[b.pid := b] && owner == old(owner) + b.Owners() && threads == old(threads)
      requires children.lists == old(children.lists)[b.active := []][b.vanished := []]
               && children.elems == old(children.elems)[b.pid := b.childLink]
      requires members.lists == old(members.lists)[b.threads := []][b.zombies := []]
               && members.elems == old(members.elems)
      requires waiters.lists == old(waiters.lists)[b.waiting := []] && waiters.elems == old(waiters.elems)
      requires pcbList in old(tasks.lists)
               && tasks.lists == old(tasks.lists)[pcbList := old(tasks.lists[pcbList]) + [b.pid]]
      requires tasks.elems == old(tasks.elems)[b.pid := b.taskLink]
      ensures Built() == Grown(old(Built()), b) && Held() == WithHeads(old(Held()), b)
    {
    }

    /** The new block is in its place, and nothing else has moved. */
    twostate lemma PcbAdded(new b: Pcb)
      requires old(Ready()) && Covered() && Linked() && b.pid == old(nextPid) && old(Forgotten(nextPid))
      requires (b.pid == initPcb.pid ==> b == initPcb) && b.Distinct()
               && b.childLink.pid == b.taskLink.pid == b.pid && b.Cleared()
      requires b.Heads() !! old(children.lists.Keys + members.lists.Keys + waiters.lists.Keys)
      requires unchanged(`threads, `tree, `nextTid) && nextPid == old(nextPid) + 1
      requires forall p :: p in old(pcbs) ==> unchanged(old(pcbs)[p])
      requires forall t :: t in threads ==> unchanged(threads[t])
      requires Built() == Grown(old(Built()), b) && children.stale == old(children.stale)
      requires Held() == WithHeads(old(Held()), b)
      requires model == WithTask(old(model), b.pid, NewTask(b.parentPid)).(nextPid := b.pid + 1)
      ensures Ready()
    {
      AddedBlocks(b);
      AddedFields(b);
      assert Agrees(model);
    }

    twostate lemma AddedBlocks(new b: Pcb)
      requires old(Ready()) && b.pid == old(nextPid) && old(Forgotten(nextPid))
               && (b.pid == initPcb.pid ==> b == initPcb)
      requires b.Distinct() && b.childLink.pid == b.taskLink.pid == b.pid
      requires b.Heads() !! old(children.lists.Keys + members.lists.Keys + waiters.lists.Keys)
      requires unchanged(`threads, `tree, `nextTid) && nextPid == old(nextPid) + 1
      requires Built() == Grown(old(Built()), b) && Held() == WithHeads(old(Held()), b)
      requires model == WithTask(old(model), b.pid, NewTask(b.parentPid)).(nextPid := b.pid + 1)
      ensures BlocksOk(Built()) && AllLists(Held(), pcbs, model.tasks) && VarsAre(model)
    {
      GrownBlocks(b);
      assert old(Agrees(model));
      HeadsHeld(old(Built()), old(Held()), old(model).tasks, b);
    }

    twostate lemma GrownBlocks(new b: Pcb)
      requires old(Ready()) && old(Forgotten(nextPid)) && b.pid == old(nextPid)
      requires b.Distinct() && b.childLink.pid == b.taskLink.pid == b.pid
      requires b.Heads() !! old(children.lists.Keys + members.lists.Keys + waiters.lists.Keys)
      ensures BlocksOk(Grown(old(Built()), b))
    {
      assert old(Agrees(model));
      NobodysTask(b);
      GrownOk(old(Built()), b);
    }

    twostate lemma AddedFields(new b: Pcb)
      requires old(Ready()) && b.pid == old(nextPid) && old(Forgotten(nextPid)) && b.Cleared()
      requires pcbs == old(pcbs)[b.pid := b] && unchanged(`threads)
      requires forall p :: p in old(pcbs) ==> unchanged(old(pcbs)[p])
      requires forall t :: t in threads ==> unchanged(threads[t])
      requires children.stale == old(children.stale)
      ensures PcbsAre(old(model).tasks[b.pid := NewTask(b.parentPid)]) && TcbsAre(old(model).threads)
      ensures AllClean(old(model).threads, children.stale)
    {
      assert old(Agrees(model));
      FieldsPlus(b);
      ThreadsBeside(b);
    }

    twostate lemma NobodysTask(new b: Pcb)
      requires old(TcbsAre(model.threads))
               && forall t :: t in old(model).threads ==> old(model).threads[t].task != b.pid
      ensures forall t :: t in old(threads) ==> old(threads)[t].task.pid != b.pid
    {
      forall t | t in old(threads)
        ensures old(threads)[t].task.pid != b.pid
      {
        assert old(ThreadAt(model.threads, t));
      }
    }

    twostate lemma FieldsPlus(new b: Pcb)
      requires old(PcbsAre(model.tasks)) && pcbs == old(pcbs)[b.pid := b] && b.pid !in old(pcbs) && unchanged(`threads)
      requires b.Cleared() && forall p :: p in old(pcbs) ==> unchanged(old(pcbs)[p])
      ensures PcbsAre(old(model).tasks[b.pid := NewTask(b.parentPid)])
    {
      forall p | p in pcbs
        ensures FieldsAt(old(model).tasks[b.pid := NewTask(b.parentPid)], p)
      {
        assert p != b.pid ==> old(FieldsAt(model.tasks, p));
      }
    }

    twostate lemma ThreadsBeside(new b: Pcb)
      requires old(TcbsAre(model.threads)) && pcbs == old(pcbs)[b.pid := b] && unchanged(`threads)
      requires forall t :: t in threads ==> unchanged(threads[t])
      requires forall t :: t in old(model).threads ==> old(model).threads[t].collected != Some(b.pid)
      ensures TcbsAre(old(model).threads)
    {
      forall t | t in threads
        ensures ThreadAt(old(model).threads, t)
      {
        assert old(ThreadAt(model.threads, t));
      }
    }

    lemma NotLinked(p: Pid)
      requires Ready() && p !in model.tasks
      ensures p !in children.elems && p !in tasks.elems
    {
      assert Agrees(model);
      assert Built().childLinks == children.elems && Built().taskLinks == tasks.elems;
    }

    method LinkTcb(b: Tcb)
      requires Covered() && Linked() && b.tid !in members.elems && b.tid !in waiters.elems && b.Unlinked()
      requires {b.threadLink, b.waitLink} !! footprint
      modifies footprint
      ensures Covered() && Linked() && footprint == old(footprint) + {b.threadLink, b.waitLink}
      ensures members.elems == old(members.elems)[b.tid := b.threadLink] && members.lists == old(members.lists)
      ensures waiters.elems == old(waiters.elems)[b.tid := b.waitLink] && waiters.lists == old(waiters.lists)
      ensures unchanged(children) && unchanged(tasks) && BlocksKept() && model == old(model)
    {
      Reached();
      LinksDiffer();
      AddLink(members, b.threadLink);
      AddLink(waiters, b.waitLink);
    }

    method EnterTcb(b: Tcb)
      requires Covered() && Linked() && b !in footprint
      modifies this
      ensures Covered() && Linked() && footprint == old(footprint) + {b}
      ensures threads == old(threads)[b.tid := b] && nextTid == old(nextTid) + 1
      ensures unchanged(`pcbs, `tree, `nextPid, `owner)
      ensures model == old(model).(threads := old(model).threads[b.tid := Thread(b.task.pid, Uninitialized, Idle, None)], nextTid := b.tid + 1)
    {
      assert Covers(footprint);
      threads := threads[b.tid := b];
      nextTid := nextTid + 1;
      footprint := footprint + {b};
      model := model.(threads := model.threads[b.tid := Thread(b.task.pid, Uninitialized, Idle, None)], nextTid := b.tid + 1);
      assert Covers(footprint);
    }

    /** The first half of create_tcb: an allocated block gets a place on its two links. */
    method AddTcb(b: Tcb)
      requires Ready() && b.tid == nextTid && b.tid !in model.threads && Known(b.task)
      requires forall p :: p in model.tasks ==> model.tasks[p].last != Some(b.tid)
      requires b.Unlinked() && b.Cleared() && {b, b.threadLink, b.waitLink} !! footprint
      modifies footprint
      ensures Ready() && footprint == old(footprint) + {b, b.threadLink, b.waitLink}
              && threads == old(threads)[b.tid := b] && pcbs == old(pcbs)
      ensures children.stale == old(children.stale)
      ensures model == old(model).(threads := old(model).threads[b.tid := Thread(b.task.pid, Uninitialized, Idle, None)], nextTid := b.tid + 1)
    {
      assert b.tid !in members.elems && b.tid !in waiters.elems by {
        assert Agrees(model) && Built().threadLinks == members.elems && Built().waitLinks == waiters.elems;
      }
      assert this in footprint by { assert Covers(footprint); }
      LinkTcb(b);
      EnterTcb(b);
      TcbAdded(b);
    }

    twostate lemma TcbAdded(new b: Tcb)
      requires old(Ready()) && Covered() && Linked() && b.tid == old(nextTid) && b.tid !in old(model).threads
               && Known(b.task)
      requires forall p :: p in old(model).tasks ==> old(model).tasks[p].last != Some(b.tid)
      requires b.threadLink.pid == b.waitLink.pid == b.tid && b.Cleared()
      requires unchanged(`pcbs, `tree, `nextPid) && nextTid == old(nextTid) + 1
      requires forall p :: p in pcbs ==> unchanged(pcbs[p])
      requires forall t :: t in old(threads) ==> unchanged(old(threads)[t])
      requires var x := old(Built());
               Built() == x.(threads := x.threads[b.tid := b], threadLinks := x.threadLinks[b.tid := b.threadLink],
                             waitLinks := x.waitLinks[b.tid := b.waitLink])
      requires Held() == old(Held()) && children.stale == old(children.stale)
      requires model == old(model).(threads := old(model).threads[b.tid := Thread(b.task.pid, Uninitialized, Idle, None)], nextTid := b.tid + 1)
      ensures Ready()
    {
      JoinedBlocks(b);
      JoinedFields(b);
      assert Agrees(model);
    }

    twostate lemma JoinedBlocks(new b: Tcb)
      requires old(Ready()) && b.tid == old(nextTid) && b.tid !in old(model).threads && Known(b.task)
      requires b.threadLink.pid == b.waitLink.pid == b.tid
      requires unchanged(`pcbs, `tree, `nextPid) && nextTid == old(nextTid) + 1
      requires var x := old(Built());
               Built() == x.(threads := x.threads[b.tid := b], threadLinks := x.threadLinks[b.tid := b.threadLink],
                             waitLinks := x.waitLinks[b.tid := b.waitLink])
      requires Held() == old(Held())
      requires model == old(model).(threads := old(model).threads[b.tid := Thread(b.task.pid, Uninitialized, Idle, None)], nextTid := b.tid + 1)
      ensures BlocksOk(Built()) && AllLists(Held(), pcbs, model.tasks) && VarsAre(model)
    {
      assert old(Agrees(model));
      TcbsGrownOk(old(Built()), b);
    }

    twostate lemma JoinedFields(new b: Tcb)
      requires old(Ready()) && b.tid !in old(model).threads && b.Cleared() && unchanged(`pcbs)
               && threads == old(threads)[b.tid := b]
      requires forall p :: p in old(model).tasks ==> old(model).tasks[p].last != Some(b.tid)
      requires forall p :: p in pcbs ==> unchanged(pcbs[p])
      requires forall t :: t in old(threads) ==> unchanged(old(threads)[t])
      requires children.stale == old(children.stale)
      ensures PcbsAre(old(model).tasks)
      ensures var hs := old(model).threads[b.tid := Thread(b.task.pid, Uninitialized, Idle, None)];
              TcbsAre(hs) && AllClean(hs, children.stale)
    {
      assert old(Agrees(model));
      TasksBeside(b);
      ThreadsPlus(b);
      CleanPlus(b.tid, Thread(b.task.pid, Uninitialized, Idle, None));
    }

    twostate lemma TasksBeside(new b: Tcb)
      requires old(PcbsAre(model.tasks)) && unchanged(`pcbs) && threads == old(threads)[b.tid := b]
      requires forall p :: p in pcbs ==> unchanged(pcbs[p])
      requires forall p :: p in old(model).tasks ==> old(model).tasks[p].last != Some(b.tid)
      ensures PcbsAre(old(model).tasks)
    {
      forall p | p in pcbs
        ensures FieldsAt(old(model).tasks, p)
      {
        assert old(FieldsAt(model.tasks, p));
      }
    }

    twostate lemma ThreadsPlus(new b: Tcb)
      requires old(TcbsAre(model.threads)) && unchanged(`pcbs) && threads == old(threads)[b.tid := b]
               && b.tid !in old(threads)
      requires b.Cleared() && forall t :: t in old(threads) ==> unchanged(old(threads)[t])
      ensures TcbsAre(old(model).threads[b.tid := Thread(b.task.pid, Uninitialized, Idle, None)])
    {
      forall t | t in threads
        ensures ThreadAt(old(model).threads[b.tid := Thread(b.task.pid, Uninitialized, Idle, None)], t)
      {
        assert t != b.tid ==> old(ThreadAt(model.threads, t));
      }
    }

    twostate lemma CleanPlus(t: Tid, new th: Thread)
      requires old(AllClean(model.threads, children.stale)) && children.stale == old(children.stale)
               && Clean(th, children.stale)
      ensures AllClean(old(model).threads[t := th], children.stale)
    {
      ghost var hs := old(model).threads[t := th];
      forall u
        ensures CleanAt(hs, children.stale, u)
      {
        assert old(CleanAt(model.threads, children.stale, u));
      }
    }

    ghost method DropLink(l: Links, n: nat)
      requires Covered() && Linked() && OneOf(l) && n in l.elems && !l.On(n)
      modifies l, l.heap
      ensures Covered() && Linked() && l.elems == old(l.elems) - {n} && l.lists == old(l.lists)
              && l.stale == old(l.stale) - {n}
      ensures OthersKept(l) && OnlyLists() && model == old(model)
    {
      LinkApart(l);
      l.DropElem(n);
      LinkWritten(l);
    }

    ghost method DropHead(l: Links, q: Queue)
      requires Covered() && Linked() && OneOf(l) && l != tasks && q in l.lists
      modifies l, l.heap
      ensures Covered() && Linked() && l.lists == old(l.lists) - {q}
              && l.elems == old(l.elems) - (set n | n in old(l.lists)[q])
      ensures l.stale == old(l.stale) && OthersKept(l) && OnlyLists() && model == old(model)
    {
      LinkApart(l);
      l.DropQueue(q);
      LinkWritten(l);
    }

    /** free_tcb */
    method FreeTcb(b: Tcb)
      requires Ready() && Mine(b) && !members.On(b.tid) && !waiters.On(b.tid)
      modifies footprint
      ensures Ready() && footprint == old(footprint) && pcbs == old(pcbs) && threads == old(threads) - {b.tid}
      ensures children.stale == old(children.stale) && model == old(model).(threads := old(model).threads - {b.tid})
    {
      TcbLinks(b);
      Reached();
      LinksDiffer();
      DropLink(members, b.tid);
      DropLink(waiters, b.tid);
      LeaveTcb(b);
      TcbDropped(b);
    }

    method LeaveTcb(b: Tcb)
      requires Covered() && Linked()
      modifies this
      ensures Covered() && Linked() && threads == old(threads) - {b.tid}
              && model == old(model).(threads := old(model).threads - {b.tid})
      ensures unchanged(`pcbs, `tree, `nextPid, `nextTid, `owner, `footprint)
    {
      assert Covers(footprint);
      threads := threads - {b.tid};
      model := model.(threads := model.threads - {b.tid});
      assert Covers(footprint);
    }

    twostate lemma TcbDropped(b: Tcb)
      requires old(Ready()) && Covered() && Linked() && unchanged(`pcbs, `tree, `nextPid, `nextTid)
      requires forall p :: p in pcbs ==> unchanged(pcbs[p])
      requires forall t :: t in old(threads) ==> unchanged(old(threads)[t])
      requires var x := old(Built());
               Built() == x.(threads := x.threads - {b.tid}, threadLinks := x.threadLinks - {b.tid}, waitLinks := x.waitLinks - {b.tid})
      requires Held() == old(Held()) && children.stale == old(children.stale)
      requires model == old(model).(threads := old(model).threads - {b.tid})
      ensures Ready()
    {
      assert old(Agrees(model));
      TcbsShrunkOk(old(Built()), b.tid);
      FieldsRemain(model.tasks, model.threads);
      CleanRemain(model.threads);
      assert Agrees(model);
    }

    /** The lists of a task that is freed; one thread is still on its list of vanished threads. */
    ghost method DropChildParts(c: Pcb)
      requires Covered() && Linked() && c.Distinct()
      requires c.active in children.lists && c.vanished in children.lists && c.pid in children.elems
               && !children.On(c.pid)
      requires children.lists[c.active] == children.lists[c.vanished] == []
      modifies children, children.heap
      ensures Covered() && Linked() && children.lists == old(children.lists) - {c.active, c.vanished}
      ensures children.elems == old(children.elems) - {c.pid} && children.stale == old(children.stale) - {c.pid}
      ensures OthersKept(children) && OnlyLists() && model == old(model)
    {
      LinksDiffer();
      DropHead(children, c.active);
      DropHead(children, c.vanished);
      DropLink(children, c.pid);
    }

    ghost method DropThreadParts(c: Pcb, last: Tcb)
      requires Covered() && Linked() && c.Distinct()
      requires c.threads in members.lists && c.zombies in members.lists
      requires members.lists[c.threads] == [] && members.lists[c.zombies] == [last.tid]
      modifies members, members.heap
      ensures Covered() && Linked() && members.lists == old(members.lists) - {c.threads, c.zombies}
      ensures members.elems == old(members.elems) - {last.tid}
      ensures OthersKept(members) && OnlyLists() && model == old(model)
    {
      LinksDiffer();
      DropHead(members, c.threads);
      DropHead(members, c.zombies);
    }

    ghost method DropWaitParts(c: Pcb, last: Tcb)
      requires Covered() && Linked() && c.waiting in waiters.lists && waiters.lists[c.waiting] == []
      requires last.tid in waiters.elems && !waiters.On(last.tid)
      modifies waiters, waiters.heap
      ensures Covered() && Linked() && waiters.lists == old(waiters.lists) - {c.waiting}
      ensures waiters.elems == old(waiters.elems) - {last.tid}
      ensures OthersKept(waiters) && OnlyLists() && model == old(model)
    {
      LinksDiffer();
      DropHead(waiters, c.waiting);
      DropLink(waiters, last.tid);
    }

    /** A task that is on no list, and has nothing left but its last thread. */
    ghost predicate Bare(c: Pcb, last: Tcb)
      reads this`model
    {
      && c.pid in model.tasks
      && var k := model.tasks[c.pid];
         && k.active == k.vanished == [] && k.waiting == k.threads == [] && k.zombies == [last.tid] && !k.listed
    }

    ghost method DropParts(c: Pcb, last: Tcb)
      requires Ready() && Known(c) && Mine(last) && Bare(c, last) && !children.On(c.pid) && !waiters.On(last.tid)
      modifies footprint
      ensures Covered() && Linked() && OnlyLists() && model == old(model)
              && children.stale == old(children.stale) - {c.pid}
      ensures Built() == Shrunk(old(Built()), c, last).(pcbs := pcbs, threads := threads)
      ensures Held() == WithoutHeads(old(Held()), c)
    {
      PcbLists(c);
      TcbLinks(last);
      NotListed(c);
      Reached();
      LinksDiffer();
      DropChildParts(c);
      DropLink(tasks, c.pid);
      DropWaitParts(c, last);
      DropThreadParts(c, last);
    }

    lemma NotListed(c: Pcb)
      requires Ready() && Known(c) && c.pid in model.tasks && !model.tasks[c.pid].listed
      ensures !tasks.On(c.pid)
    {
      ListedIs(c.pid);
      assert LinksHold(children.lists);
    }

    method LeavePcb(c: Pcb, last: Tcb)
      requires Covered() && Linked()
      modifies this
      ensures Covered() && Linked() && threads == old(threads) - {last.tid} && pcbs == old(pcbs) - {c.pid}
      ensures model == old(model).(tasks := old(model).tasks - {c.pid}, threads := old(model).threads - {last.tid},
                                   reaped := old(model).reaped + [c.pid])
      ensures unchanged(`tree, `nextPid, `nextTid, `owner, `footprint)
    {
      assert Covers(footprint);
      threads := threads - {last.tid};
      pcbs := pcbs - {c.pid};
      model := model.(tasks := model.tasks - {c.pid}, threads := model.threads - {last.tid}, reaped := model.reaped + [c.pid]);
      assert Covers(footprint);
    }

    /** free_pcb_but_not_pd, with free_tcb of the last thread */
    method FreePcb(c: Pcb, last: Tcb)
      requires Ready() && Known(c) && Mine(last) && Bare(c, last) && !children.On(c.pid) && !waiters.On(last.tid)
      modifies footprint
      ensures Ready() && footprint == old(footprint) && children.stale <= old(children.stale)
      ensures pcbs == old(pcbs) - {c.pid} && threads == old(threads) - {last.tid}
      ensures model == old(model).(tasks := old(model).tasks - {c.pid}, threads := old(model).threads - {last.tid},
                                   reaped := old(model).reaped + [c.pid])
    {
      DropParts(c, last);
      LinkApart(children);
      LeavePcb(c, last);
      PcbDropped(c, last);
    }

    twostate lemma PcbDropped(c: Pcb, new last: Tcb)
      requires old(Ready()) && Covered() && Linked() && old(Known(c)) && unchanged(`tree, `nextPid, `nextTid)
      requires Built() == Shrunk(old(Built()), c, last) && Held() == WithoutHeads(old(Held()), c)
      requires children.stale <= old(children.stale)
      requires forall p :: p in old(pcbs) ==> unchanged(old(pcbs)[p])
      requires forall t :: t in old(threads) ==> unchanged(old(threads)[t])
      requires model == old(model).(tasks := old(model).tasks - {c.pid}, threads := old(model).threads - {last.tid},
                                    reaped := old(model).reaped + [c.pid])
      ensures Ready()
    {
      assert old(Agrees(model));
      ShrunkOk(old(Built()), c, last);
      HeadsDropped(old(Built()), old(Held()), old(model).tasks, c);
      FieldsRemain(model.tasks, model.threads);
      CleanRemain(model.threads);
      assert Agrees(model);
    }

    /** Some blocks are gone; the others have not changed. */
    twostate lemma FieldsRemain(new us: map<Pid, Task>, new hs: map<Tid, Thread>)
      requires old(PcbsAre(model.tasks)) && old(TcbsAre(model.threads))
      requires forall p :: p in pcbs ==> p in old(pcbs) && pcbs[p] == old(pcbs)[p] && unchanged(old(pcbs)[p])
      requires forall t :: t in threads ==> t in old(threads) && threads[t] == old(threads)[t] && unchanged(old(threads)[t])
      requires pcbs.Keys == us.Keys && forall p :: p in us ==> p in old(model).tasks && us[p] == old(model).tasks[p]
      requires threads.Keys == hs.Keys && forall t :: t in hs ==> t in old(model).threads && hs[t] == old(model).threads[t]
      ensures PcbsAre(us) && TcbsAre(hs)
    {
      forall p | p in pcbs
        ensures FieldsAt(us, p)
      {
        assert old(FieldsAt(model.tasks, p));
      }
      forall t | t in threads
        ensures ThreadAt(hs, t)
      {
        assert old(ThreadAt(model.threads, t));
      }
    }

    twostate lemma CleanRemain(new hs: map<Tid, Thread>)
      requires old(AllClean(model.threads, children.stale)) && children.stale <= old(children.stale)
      requires forall t :: t in hs ==> t in old(model).threads && hs[t] == old(model).threads[t]
      ensures AllClean(hs, children.stale)
    {
      forall t
        ensures CleanAt(hs, children.stale, t)
      {
        assert old(CleanAt(model.threads, children.stale, t));
      }
    }

    /** remove_pcb */
    method RemovePcb(b: Pcb)
      requires Ready() && Known(b) && b.pid in model.tasks && model.tasks[b.pid].listed
      modifies footprint
      ensures Stays()
      ensures model == WithTask(old(model), b.pid, old(model).tasks[b.pid].(listed := false))
    {
      ListedIs(b.pid);
      LinksDiffer();
      assert tasks.KnownElem(b.taskLink) && b.taskLink.pid == b.pid by { PcbLists(b); }
      Delete(tasks, pcbList, b.taskLink);
      model := WithTask(model, b.pid, model.tasks[b.pid].(listed := false));
      Unlisted(b);
      CleanStays();
      ListsWritten();
    }

    twostate lemma Unlisted(b: Pcb)
      requires old(Ready()) && unchanged(`pcbs, `owner) && old(Known(b)) && b.pid in old(model).tasks
               && pcbList in old(tasks.lists)
      requires tasks.lists == old(tasks.lists)[pcbList := Without(old(tasks.lists)[pcbList], b.pid)] && !tasks.On(b.pid)
      requires unchanged(children) && unchanged(members) && unchanged(waiters)
      ensures AllLists(Held(), pcbs, old(model).tasks[b.pid := old(model).tasks[b.pid].(listed := false)])
    {
      assert old(Agrees(model));
      ghost var us := old(model).tasks[b.pid := old(model).tasks[b.pid].(listed := false)];
      forall p | p in pcbs
        ensures ListsAt(Held(), pcbs, us, p)
      {
        assert old(ListsAt(Held(), pcbs, model.tasks, p)) && PcbOk(old(Built()), p);
      }
    }

    // ------------------------------------------------------------------ what a link may be used for

    lemma CleanIs(b: Tcb)
      requires Ready() && Mine(b)
      ensures b.tid in model.threads && Clean(model.threads[b.tid], children.stale)
    {
      assert Agrees(model) && CleanAt(model.threads, children.stale, b.tid);
    }

    /** A child on a list is a task of this manager, and its link is not stale. */
    lemma ChildIs(b: Pcb, kind: Kind, n: nat)
      requires Ready() && Known(b) && (kind.Active? || kind.Vanished?)
      requires b.pid in model.tasks && n in ListOf(model.tasks[b.pid], kind)
      ensures n in pcbs && Known(pcbs[n]) && pcbs[n].pid == n && n !in children.stale
    {
      HeadIs(b, kind);
      LinkApart(children);
      children.MemberFresh(Head(b, kind), n);
      assert Agrees(model) && Built().childLinks == children.elems;
      PcbAt(n);
    }

    lemma ChildLink(c: Pcb)
      requires Ready() && Known(c)
      ensures children.KnownElem(c.childLink) && c.childLink.pid == c.pid
    {
      PcbLists(c);
    }

    lemma ThreadLinks(b: Tcb)
      requires Ready() && Mine(b)
      ensures members.KnownElem(b.threadLink) && b.threadLink.pid == b.tid
      ensures waiters.KnownElem(b.waitLink) && b.waitLink.pid == b.tid
      ensures b.tid !in members.stale && b.tid !in waiters.stale
    {
      TcbLinks(b);
      assert LinksHold(children.lists);
    }

    /** A thread on a list is a thread of this manager. */
    lemma ThreadIs(b: Pcb, kind: Kind, n: nat)
      requires Ready() && Known(b) && !kind.Active? && !kind.Vanished?
      requires b.pid in model.tasks && n in ListOf(model.tasks[b.pid], kind)
      ensures n in threads && Mine(threads[n]) && threads[n].tid == n
    {
      HeadIs(b, kind);
      LinkApart(LinkOf(kind));
      LinkOf(kind).MemberFresh(Head(b, kind), n);
      assert Agrees(model) && Built().threadLinks == members.elems && Built().waitLinks == waiters.elems;
      TcbAt(n);
    }

    /** No task and no thread. */
    constructor (init: Pcb, t: Tid, children: Links, tasks: Links, members: Links, waiters: Links, pcbList: Queue)
      requires children.Valid() && tasks.Valid() && members.Valid() && waiters.Valid()
      requires children.Frame() !! tasks.Frame() && children.Frame() !! members.Frame()
               && children.Frame() !! waiters.Frame()
      requires tasks.Frame() !! members.Frame() && tasks.Frame() !! waiters.Frame()
               && members.Frame() !! waiters.Frame()
      requires children.lists == members.lists == waiters.lists == map[] && tasks.lists == map[pcbList := []]
      requires children.elems == tasks.elems == members.elems == waiters.elems == map[]
      requires children.stale == tasks.stale == members.stale == waiters.stale == {}
      ensures Ready() && initPcb == init && model == State(init.pid, map[], map[], None, init.pid, t, [])
      ensures footprint == {this} + children.Frame() + tasks.Frame() + members.Frame() + waiters.Frame()
    {
      this.children, this.tasks, this.members, this.waiters, this.pcbList := children, tasks, members, waiters, pcbList;
      initPcb := init;
      pcbs, threads, tree, nextPid, nextTid, owner := map[], map[], None, init.pid, t, map[];
      model := State(init.pid, map[], map[], None, init.pid, t, []);
      footprint := {this} + children.Frame() + tasks.Frame() + members.Frame() + waiters.Frame();
      new;
      StartReady();
    }

    lemma StartReady()
      requires children.Valid() && tasks.Valid() && members.Valid() && waiters.Valid()
      requires children.Frame() !! tasks.Frame() && children.Frame() !! members.Frame()
               && children.Frame() !! waiters.Frame()
      requires tasks.Frame() !! members.Frame() && tasks.Frame() !! waiters.Frame()
               && members.Frame() !! waiters.Frame()
      requires children.lists == members.lists == waiters.lists == map[] && tasks.lists == map[pcbList := []]
      requires children.elems == tasks.elems == members.elems == waiters.elems == map[]
      requires children.stale == tasks.stale == members.stale == waiters.stale == {}
      requires footprint == {this} + children.Frame() + tasks.Frame() + members.Frame() + waiters.Frame()
      requires pcbs == map[] && threads == map[] && owner == map[]
      requires model == State(initPcb.pid, map[], map[], tree, nextPid, nextTid, [])
      ensures Ready()
    {
      assert LinksHold(children.lists) && Covers(footprint) && Agrees(model);
    }
  }
}
