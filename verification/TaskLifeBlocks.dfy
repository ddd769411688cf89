/** Process and thread control blocks in the heap, with the links and list heads inside them, and what must hold of
    all of them together.  Contents and blocks are values here: nothing in this module depends on pointers. */
module TaskLifeBlocks {
  import opened Seqs
  import opened IntrusiveQueue
  import opened TaskLife

  /** Q_INIT_HEAD */
  ghost predicate EmptyHead(q: Queue)
    reads q
  {
    q.front == null && q.tail == null && q.Elems == []
  }

  /** pcb_t */
  class Pcb {
    const pid: Pid
    const parentPid: Pid
    const childLink: Elem     // vanished_child_tasks_link
    const taskLink: Elem      // task_link
    const active: Queue       // active_child_tasks_list
    const vanished: Queue     // vanished_child_tasks_list
    const waiting: Queue      // waiting_threads_list
    const threads: Queue      // active_threads_list
    const zombies: Queue      // vanished_threads_list
    var numActive: int
    var numVanished: int
    var numWaiting: int
    var numThreads: int
    var numZombies: int
    var totalThreads: int
    var mux: Option<Tid>      // the owner of set_status_vanish_wait_mux
    var last: Tcb?

    /** create_pcb, before the block is on pcb_list */
    constructor (pid: Pid, parentPid: Pid)
      ensures this.pid == pid && this.parentPid == parentPid
      ensures Cleared()
      ensures Unlinked() && fresh(childLink) && fresh(taskLink) && forall q :: q in Heads() ==> fresh(q)
    {
      this.pid, this.parentPid := pid, parentPid;
      childLink := new Elem(pid);
      taskLink := new Elem(pid);
      active := new Queue();
      vanished := new Queue();
      waiting := new Queue();
      threads := new Queue();
      zombies := new Queue();
      numActive, numVanished, numWaiting, numThreads, numZombies, totalThreads := 0, 0, 0, 0, 0, 0;
      mux, last := None, null;
    }

    /** The queue heads and links inside the block. */
    ghost function Heads(): set<Queue> {
      {active, vanished, waiting, threads, zombies}
    }

    ghost predicate Distinct() {
      && active != vanished && threads != zombies && waiting !in {active, vanished, threads, zombies}
      && active !in {threads, zombies} && vanished !in {threads, zombies}
    }

    ghost function Parts(): set<object> {
      Heads() + {childLink, taskLink}
    }

    /** Heads and links as create_pcb initialises them. */
    ghost predicate Unlinked()
      reads childLink, taskLink, active, vanished, waiting, threads, zombies
    {
      && Distinct() && childLink != taskLink && childLink.Detached() && taskLink.Detached()
      && childLink.pid == taskLink.pid == pid
      && EmptyHead(active) && EmptyHead(vanished) && EmptyHead(waiting) && EmptyHead(threads) && EmptyHead(zombies)
    }

    ghost function Owners(): map<Queue, (Pid, Kind)> {
      map[active := (pid, Active), vanished := (pid, Vanished), waiting := (pid, WaitingThreads),
          threads := (pid, Threads), zombies := (pid, Zombies)]
    }

    ghost predicate Cleared()
      reads this
    {
      && numActive == numVanished == numWaiting == numThreads == numZombies == totalThreads == 0
      && mux == None && last == null
    }

    method SetMux(who: Option<Tid>)
      modifies this`mux
      ensures mux == who
    {
      mux := who;
    }

    method SetLast(last: Tcb)
      modifies this`last
      ensures this.last == last
    {
      this.last := last;
    }

    method CountTotal()
      modifies this`totalThreads
      ensures totalThreads == old(totalThreads) + 1
    {
      totalThreads := totalThreads + 1;
    }

    /** num_active_child_tasks and its like go up or down by one. */
    method Count(kind: Kind, d: int)
      modifies this`numActive, this`numVanished, this`numWaiting, this`numThreads, this`numZombies
      ensures numActive == old(numActive) + (if kind.Active? then d else 0)
      ensures numVanished == old(numVanished) + (if kind.Vanished? then d else 0)
      ensures numWaiting == old(numWaiting) + (if kind.WaitingThreads? then d else 0)
      ensures numThreads == old(numThreads) + (if kind.Threads? then d else 0)
      ensures numZombies == old(numZombies) + (if kind.Zombies? then d else 0)
    {
      match kind {
        case Active => numActive := numActive + d;
        case Vanished => numVanished := numVanished + d;
        case WaitingThreads => numWaiting := numWaiting + d;
        case Threads => numThreads := numThreads + d;
        case Zombies => numZombies := numZombies + d;
      }
    }
  }

  /** tcb_t; `pc` stands for the thread's kernel stack. */
  class Tcb {
    const tid: Tid
    const task: Pcb           // owning_task
    const threadLink: Elem    // task_thread_link
    const waitLink: Elem      // waiting_threads_link
    var status: Status
    var pc: Pc
    var collected: Pcb?       // collected_vanished_child

    /** create_tcb, before the block is on its task's list */
    constructor (tid: Tid, task: Pcb)
      ensures this.tid == tid && this.task == task && status == Uninitialized && pc == Idle && collected == null
      ensures Unlinked() && fresh(threadLink) && fresh(waitLink)
    {
      this.tid, this.task := tid, task;
      threadLink := new Elem(tid);
      waitLink := new Elem(tid);
      status, pc, collected := Uninitialized, Idle, null;
    }

    ghost predicate Unlinked()
      reads threadLink, waitLink
    {
      threadLink != waitLink && threadLink.Detached() && waitLink.Detached() && threadLink.pid == waitLink.pid == tid
    }

    ghost predicate Cleared()
      reads this
    {
      status == Uninitialized && pc == Idle && collected == null
    }
  }

  /** The lists a queue head of a control block stands for. */
  datatype Kind = Active | Vanished | WaitingThreads | Threads | Zombies

  /** A link that is going to be inserted has been initialised since its queue was given up. */
  predicate Clean(th: Thread, stale: set<Pid>) {
    && (match th.pc
        case ForkWantMux(c, _) => c !in stale
        case ForkHasMux(c, _) => c !in stale
        case VanWantTarget(_, orphan) => orphan ==> th.task !in stale
        case VanHasTarget(_, _) => th.task !in stale
        case _ => true)
    && (th.collected.Some? ==> th.collected.value !in stale)
  }

  /** The control blocks, their links and the heads of their lists. */
  datatype Blocks = Blocks(
    pcbs: map<Pid, Pcb>, threads: map<Tid, Tcb>, owner: map<Queue, (Pid, Kind)>,
    childHeads: set<Queue>, threadHeads: set<Queue>, waitHeads: set<Queue>,
    childLinks: map<nat, Elem>, taskLinks: map<nat, Elem>, threadLinks: map<nat, Elem>, waitLinks: map<nat, Elem>)

  /** What is on pcb_list and on the lists with a head in a control block. */
  datatype Contents = Contents(
    listed: seq<nat>, children: map<Queue, seq<nat>>, members: map<Queue, seq<nat>>, waiters: map<Queue, seq<nat>>)

  ghost predicate PcbOk(x: Blocks, p: Pid)
    requires p in x.pcbs
  {
    var b := x.pcbs[p];
    && b.pid == p
    && b.active in x.owner && x.owner[b.active] == (p, Active) && b.active in x.childHeads
    && b.vanished in x.owner && x.owner[b.vanished] == (p, Vanished) && b.vanished in x.childHeads
    && b.waiting in x.owner && x.owner[b.waiting] == (p, WaitingThreads) && b.waiting in x.waitHeads
    && b.threads in x.owner && x.owner[b.threads] == (p, Threads) && b.threads in x.threadHeads
    && b.zombies in x.owner && x.owner[b.zombies] == (p, Zombies) && b.zombies in x.threadHeads
    && p in x.childLinks && x.childLinks[p] == b.childLink && b.childLink.pid == p
    && p in x.taskLinks && x.taskLinks[p] == b.taskLink && b.taskLink.pid == p
  }

  ghost predicate TcbOk(x: Blocks, t: Tid)
    requires t in x.threads
  {
    var b := x.threads[t];
    && b.tid == t && (b.task.pid in x.pcbs ==> x.pcbs[b.task.pid] == b.task)
    && t in x.threadLinks && x.threadLinks[t] == b.threadLink && b.threadLink.pid == t
    && t in x.waitLinks && x.waitLinks[t] == b.waitLink && b.waitLink.pid == t
  }

  /** A list with a head on one of the links belongs to an allocated block. */
  ghost predicate Owned(x: Blocks, q: Queue) {
    && q in x.owner && x.owner[q].0 in x.pcbs
    && match x.owner[q].1
       case Active => q == x.pcbs[x.owner[q].0].active && q in x.childHeads
       case Vanished => q == x.pcbs[x.owner[q].0].vanished && q in x.childHeads
       case WaitingThreads => q == x.pcbs[x.owner[q].0].waiting && q in x.waitHeads
       case Threads => q == x.pcbs[x.owner[q].0].threads && q in x.threadHeads
       case Zombies => q == x.pcbs[x.owner[q].0].zombies && q in x.threadHeads
  }

  ghost predicate BlocksOk(x: Blocks) {
    && x.pcbs.Keys == x.childLinks.Keys == x.taskLinks.Keys
    && x.threads.Keys == x.threadLinks.Keys == x.waitLinks.Keys
    && x.childHeads !! x.threadHeads && x.childHeads !! x.waitHeads && x.threadHeads !! x.waitHeads
    && (forall p {:trigger PcbOk(x, p)} :: p in x.pcbs ==> PcbOk(x, p))
    && (forall t {:trigger TcbOk(x, t)} :: t in x.threads ==> TcbOk(x, t))
    && (forall q {:trigger Owned(x, q)} :: q in x.childHeads + x.threadHeads + x.waitHeads ==> Owned(x, q))
  }

  ghost predicate ListsOk(c: Contents, b: Pcb, k: Task) {
    && b.active in c.children && c.children[b.active] == k.active
    && b.vanished in c.children && c.children[b.vanished] == k.vanished
    && b.waiting in c.waiters && c.waiters[b.waiting] == k.waiting
    && b.threads in c.members && c.members[b.threads] == k.threads
    && b.zombies in c.members && c.members[b.zombies] == k.zombies
    && (b.pid in c.listed <==> k.listed)
  }

  predicate SameLists(k: Task, l: Task) {
    && k.active == l.active && k.vanished == l.vanished && k.waiting == l.waiting
    && k.threads == l.threads && k.zombies == l.zombies && k.listed == l.listed
  }

  predicate SameFields(k: Task, l: Task) {
    && k.parent == l.parent && k.mux == l.mux && k.last == l.last && k.totalThreads == l.totalThreads
    && k.numActive == l.numActive && k.numVanished == l.numVanished && k.numWaiting == l.numWaiting
    && k.numThreads == l.numThreads && k.numZombies == l.numZombies
  }

  function Head(b: Pcb, kind: Kind): Queue {
    match kind
    case Active => b.active
    case Vanished => b.vanished
    case WaitingThreads => b.waiting
    case Threads => b.threads
    case Zombies => b.zombies
  }

  function ListOf(k: Task, kind: Kind): seq<nat> {
    match kind
    case Active => k.active
    case Vanished => k.vanished
    case WaitingThreads => k.waiting
    case Threads => k.threads
    case Zombies => k.zombies
  }

  function WithList(k: Task, kind: Kind, xs: seq<nat>): Task {
    match kind
    case Active => k.(active := xs)
    case Vanished => k.(vanished := xs)
    case WaitingThreads => k.(waiting := xs)
    case Threads => k.(threads := xs)
    case Zombies => k.(zombies := xs)
  }

  ghost function WithContents(c: Contents, kind: Kind, q: Queue, xs: seq<nat>): Contents {
    match kind
    case Active => c.(children := c.children[q := xs])
    case Vanished => c.(children := c.children[q := xs])
    case WaitingThreads => c.(waiters := c.waiters[q := xs])
    case Threads => c.(members := c.members[q := xs])
    case Zombies => c.(members := c.members[q := xs])
  }

  ghost predicate ListsAt(c: Contents, pcbs: map<Pid, Pcb>, ts: map<Pid, Task>, p: Pid)
    requires p in pcbs
  {
    p in ts && ListsOk(c, pcbs[p], ts[p])
  }

  ghost predicate AllLists(c: Contents, pcbs: map<Pid, Pcb>, ts: map<Pid, Task>) {
    forall p {:trigger ListsAt(c, pcbs, ts, p)} :: p in pcbs ==> ListsAt(c, pcbs, ts, p)
  }

  ghost predicate CleanAt(hs: map<Tid, Thread>, stale: set<Pid>, t: Tid) {
    t in hs ==> Clean(hs[t], stale)
  }

  ghost predicate AllClean(hs: map<Tid, Thread>, stale: set<Pid>) {
    forall t {:trigger CleanAt(hs, stale, t)} :: CleanAt(hs, stale, t)
  }

  lemma ListFollows(x: Blocks, c: Contents, ts: map<Pid, Task>, p: Pid, kind: Kind, xs: seq<nat>)
    requires BlocksOk(x) && AllLists(c, x.pcbs, ts) && p in x.pcbs && p in ts
    ensures var d := WithContents(c, kind, Head(x.pcbs[p], kind), xs);
            AllLists(d, x.pcbs, ts[p := WithList(ts[p], kind, xs)])
  {
    var d := WithContents(c, kind, Head(x.pcbs[p], kind), xs);
    assert PcbOk(x, p);
    forall r | r in x.pcbs
      ensures ListsAt(d, x.pcbs, ts[p := WithList(ts[p], kind, xs)], r)
    {
      assert ListsAt(c, x.pcbs, ts, r) && PcbOk(x, r);
    }
  }

  lemma ListsStay(x: Blocks, c: Contents, ts: map<Pid, Task>, p: Pid, k: Task)
    requires AllLists(c, x.pcbs, ts) && p in ts && SameLists(ts[p], k)
    ensures AllLists(c, x.pcbs, ts[p := k])
  {
    forall r | r in x.pcbs
      ensures ListsAt(c, x.pcbs, ts[p := k], r)
    {
      assert ListsAt(c, x.pcbs, ts, r);
    }
  }

  function Joined(ts: map<Pid, Task>, a: Pid, b: Pid): map<Pid, Task>
    requires a in ts && b in ts
  {
    ts[a := ts[a].(vanished := ts[a].vanished + ts[b].vanished)][b := ts[b].(vanished := [])]
  }

  /** Every head on a link is the head of a list of some task. */
  lemma HeadOwned(x: Blocks, c: Contents, ts: map<Pid, Task>, q: Queue)
    requires BlocksOk(x) && AllLists(c, x.pcbs, ts)
    ensures q in x.childHeads ==>
              exists p :: p in ts && q in c.children && (c.children[q] == ts[p].active
                || c.children[q] == ts[p].vanished)
    ensures q in x.threadHeads ==>
              exists p :: p in ts && q in c.members && (c.members[q] == ts[p].threads || c.members[q] == ts[p].zombies)
    ensures q in x.waitHeads ==> exists p :: p in ts && q in c.waiters && c.waiters[q] == ts[p].waiting
  {
    if q in x.childHeads + x.threadHeads + x.waitHeads {
      assert Owned(x, q);
      assert ListsAt(c, x.pcbs, ts, x.owner[q].0);
    }
  }

  /** The blocks with one more, which has new heads and links. */
  ghost function Grown(x: Blocks, b: Pcb): Blocks {
    x.(pcbs := x.pcbs[b.pid := b], owner := x.owner + b.Owners(),
       childHeads := x.childHeads + {b.active, b.vanished}, threadHeads := x.threadHeads + {b.threads, b.zombies},
       waitHeads := x.waitHeads + {b.waiting},
       childLinks := x.childLinks[b.pid := b.childLink], taskLinks := x.taskLinks[b.pid := b.taskLink])
  }

  /** The blocks without one task and its last thread. */
  ghost function Shrunk(x: Blocks, c: Pcb, last: Tcb): Blocks {
    x.(pcbs := x.pcbs - {c.pid}, threads := x.threads - {last.tid},
       childHeads := x.childHeads - {c.active, c.vanished}, threadHeads := x.threadHeads - {c.threads, c.zombies},
       waitHeads := x.waitHeads - {c.waiting}, childLinks := x.childLinks - {c.pid}, taskLinks := x.taskLinks - {c.pid},
       threadLinks := x.threadLinks - {last.tid}, waitLinks := x.waitLinks - {last.tid})
  }

  ghost function WithoutHeads(c: Contents, b: Pcb): Contents {
    c.(children := c.children - {b.active, b.vanished}, members := c.members - {b.threads, b.zombies},
       waiters := c.waiters - {b.waiting})
  }

  lemma ShrunkOk(x: Blocks, c: Pcb, last: Tcb)
    requires BlocksOk(x) && c.pid in x.pcbs && x.pcbs[c.pid] == c
    ensures BlocksOk(Shrunk(x, c, last))
  {
    var y := Shrunk(x, c, last);
    assert PcbOk(x, c.pid);
    forall p | p in y.pcbs
      ensures PcbOk(y, p)
    {
      assert PcbOk(x, p);
    }
    forall t | t in y.threads
      ensures TcbOk(y, t)
    {
      assert TcbOk(x, t);
    }
    forall q | q in y.childHeads + y.threadHeads + y.waitHeads
      ensures Owned(y, q)
    {
      assert Owned(x, q);
    }
  }

  lemma HeadsDropped(x: Blocks, c: Contents, ts: map<Pid, Task>, b: Pcb)
    requires BlocksOk(x) && AllLists(c, x.pcbs, ts) && b.pid in x.pcbs && x.pcbs[b.pid] == b
    ensures AllLists(WithoutHeads(c, b), x.pcbs - {b.pid}, ts - {b.pid})
  {
    assert PcbOk(x, b.pid);
    forall p | p in x.pcbs - {b.pid}
      ensures ListsAt(WithoutHeads(c, b), x.pcbs - {b.pid}, ts - {b.pid}, p)
    {
      assert ListsAt(c, x.pcbs, ts, p) && PcbOk(x, p);
    }
  }

  /** The contents with the empty lists of a new block, which is on pcb_list. */
  ghost function WithHeads(c: Contents, b: Pcb): Contents {
    Contents(c.listed + [b.pid], c.children[b.active := []][b.vanished := []],
             c.members[b.threads := []][b.zombies := []], c.waiters[b.waiting := []])
  }

  lemma HeadsHeld(x: Blocks, c: Contents, ts: map<Pid, Task>, b: Pcb)
    requires BlocksOk(x) && AllLists(c, x.pcbs, ts) && b.pid !in x.pcbs && b.Distinct()
    requires b.Heads() !! (x.childHeads + x.threadHeads + x.waitHeads)
    ensures AllLists(WithHeads(c, b), x.pcbs[b.pid := b], ts[b.pid := NewTask(b.parentPid)])
  {
    var d, ps, us := WithHeads(c, b), x.pcbs[b.pid := b], ts[b.pid := NewTask(b.parentPid)];
    forall p | p in ps
      ensures ListsAt(d, ps, us, p)
    {
      if p != b.pid {
        assert ListsAt(c, x.pcbs, ts, p) && PcbOk(x, p);
        assert Head(x.pcbs[p], Active) in x.childHeads + x.threadHeads + x.waitHeads;
      }
    }
  }

  lemma GrownOk(x: Blocks, b: Pcb)
    requires BlocksOk(x) && b.pid !in x.pcbs && b.Distinct() && b.childLink.pid == b.taskLink.pid == b.pid
    requires b.Heads() !! (x.childHeads + x.threadHeads + x.waitHeads)
    requires forall t :: t in x.threads ==> x.threads[t].task.pid != b.pid
    ensures BlocksOk(Grown(x, b))
  {
    var y := Grown(x, b);
    assert y.pcbs.Keys == y.childLinks.Keys == y.taskLinks.Keys;
    assert y.childHeads !! y.threadHeads && y.childHeads !! y.waitHeads
           && y.threadHeads !! y.waitHeads by { GrownApart(x, b); }
    forall p | p in y.pcbs
      ensures PcbOk(y, p)
    {
      GrownPcb(x, b, p);
    }
    forall t | t in y.threads
      ensures TcbOk(y, t)
    {
      assert TcbOk(x, t);
    }
    forall q | q in y.childHeads + y.threadHeads + y.waitHeads
      ensures Owned(y, q)
    {
      GrownHead(x, b, q);
    }
  }

  lemma GrownApart(x: Blocks, b: Pcb)
    requires BlocksOk(x) && b.Distinct() && b.Heads() !! (x.childHeads + x.threadHeads + x.waitHeads)
    ensures var y := Grown(x, b);
            y.childHeads !! y.threadHeads && y.childHeads !! y.waitHeads && y.threadHeads !! y.waitHeads
  {
    assert forall q :: q in b.Heads() ==> q !in x.childHeads && q !in x.threadHeads && q !in x.waitHeads;
  }

  lemma GrownPcb(x: Blocks, b: Pcb, p: Pid)
    requires BlocksOk(x) && b.Distinct() && b.childLink.pid == b.taskLink.pid == b.pid && p in Grown(x, b).pcbs
    requires b.Heads() !! (x.childHeads + x.threadHeads + x.waitHeads)
    ensures PcbOk(Grown(x, b), p)
  {
    if p != b.pid {
      assert PcbOk(x, p);
      var c := x.pcbs[p];
      assert {c.active, c.vanished, c.waiting, c.threads, c.zombies} <= x.childHeads + x.threadHeads + x.waitHeads;
      assert {c.active, c.vanished, c.waiting, c.threads, c.zombies} !! b.Owners().Keys;
    }
  }

  lemma GrownHead(x: Blocks, b: Pcb, q: Queue)
    requires BlocksOk(x) && b.pid !in x.pcbs && b.Distinct()
             && b.Heads() !! (x.childHeads + x.threadHeads + x.waitHeads)
    requires var y := Grown(x, b); q in y.childHeads + y.threadHeads + y.waitHeads
    ensures Owned(Grown(x, b), q)
  {
    if q !in b.Heads() {
      assert Owned(x, q) && q !in b.Owners();
    }
  }

  lemma TcbsGrownOk(x: Blocks, b: Tcb)
    requires BlocksOk(x) && b.tid !in x.threads && b.threadLink.pid == b.waitLink.pid == b.tid
    requires b.task.pid in x.pcbs && x.pcbs[b.task.pid] == b.task
    ensures BlocksOk(x.(threads := x.threads[b.tid := b], threadLinks := x.threadLinks[b.tid := b.threadLink],
                        waitLinks := x.waitLinks[b.tid := b.waitLink]))
  {
    var y := x.(threads := x.threads[b.tid := b], threadLinks := x.threadLinks[b.tid := b.threadLink],
                waitLinks := x.waitLinks[b.tid := b.waitLink]);
    SameTasks(x, y);
    forall t | t in y.threads
      ensures TcbOk(y, t)
    {
      assert t != b.tid ==> TcbOk(x, t);
    }
  }

  lemma TcbsShrunkOk(x: Blocks, t: Tid)
    requires BlocksOk(x)
    ensures BlocksOk(x.(threads := x.threads - {t}, threadLinks := x.threadLinks - {t}, waitLinks := x.waitLinks - {t}))
  {
    var y := x.(threads := x.threads - {t}, threadLinks := x.threadLinks - {t}, waitLinks := x.waitLinks - {t});
    SameTasks(x, y);
    forall u | u in y.threads
      ensures TcbOk(y, u)
    {
      assert TcbOk(x, u);
    }
  }

  /** Nothing about tasks has changed. */
  lemma SameTasks(x: Blocks, y: Blocks)
    requires BlocksOk(x) && y == x.(threads := y.threads, threadLinks := y.threadLinks, waitLinks := y.waitLinks)
    ensures forall p :: p in y.pcbs ==> PcbOk(y, p)
    ensures forall q :: q in y.childHeads + y.threadHeads + y.waitHeads ==> Owned(y, q)
  {
    forall p | p in y.pcbs
      ensures PcbOk(y, p)
    {
      assert PcbOk(x, p);
    }
    forall q | q in y.childHeads + y.threadHeads + y.waitHeads
      ensures Owned(y, q)
    {
      assert Owned(x, q);
    }
  }

  function Counted(k: Task, kind: Kind, d: int): Task {
    match kind
    case Active => k.(numActive := k.numActive + d)
    case Vanished => k.(numVanished := k.numVanished + d)
    case WaitingThreads => k.(numWaiting := k.numWaiting + d)
    case Threads => k.(numThreads := k.numThreads + d)
    case Zombies => k.(numZombies := k.numZombies + d)
  }

  function OneMore(k: Task): Task {
    k.(totalThreads := k.totalThreads + 1)
  }

  function Named(c: Pcb?): Option<Pid> {
    if c == null then None else Some(c.pid)
  }
}
