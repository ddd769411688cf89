/** The invariant of the fork/wait/vanish protocol. */
module TaskLifeInvariant {
  import opened Seqs
  import opened TaskLife

  /** Where a task is.  A state is well formed when one map gives every task its only place. */
  datatype Place =
    | Forming(who: Tid)   // built by a forking thread, not on its parent's list yet
    | Live               // has threads that have not vanished
    | Carried(who: Tid)   // its last thread is on its way through _vanish
    | OnList(q: Pid)     // on the vanished list of task q
    | Held(w: Tid)       // collected_vanished_child of thread w

  type Places = map<Pid, Place>

  predicate Dying(pc: Pc) {
    pc.VanFree? || pc.VanWantInit? || pc.VanHasInit? || pc.VanWantTree2? || pc.VanHasTree2? || pc.VanWantTarget?
    || pc.VanHasTarget?
  }

  predicate HoldsTree(pc: Pc) {
    pc.VanWantMux? || pc.VanHasBoth? || pc.VanHasTree2? || pc.VanWantTarget?
  }

  /** The task whose mutex a thread of task `p` holds at `pc`. */
  function HeldMux(init: Pid, p: Pid, pc: Pc): Option<Pid> {
    match pc
    case ForkHasMux(_, _) => Some(p)
    case WaitHasMux => Some(p)
    case VanHasBoth => Some(p)
    case VanHasInit => Some(init)
    case VanHasTarget(q, _) => Some(q)
    case _ => None
  }

  /** The task whose mutex thread t holds, going by its program counter. */
  ghost function Holds(s: State, t: Tid): Option<Pid> {
    if t in s.threads then HeldMux(s.init, s.threads[t].task, s.threads[t].pc) else None
  }

  ghost predicate HasTree(s: State, t: Tid) {
    t in s.threads && HoldsTree(s.threads[t].pc)
  }

  ghost function MuxAt(s: State, q: Pid): Option<Tid> {
    if q in s.tasks then s.tasks[q].mux else None
  }

  /** Lock owners are exactly the threads whose program counter is inside the lock. */
  ghost predicate LockOk(s: State, t: Tid, q: Pid) {
    Holds(s, t) == Some(q) <==> MuxAt(s, q) == Some(t)
  }

  ghost predicate TreeOk(s: State, t: Tid) {
    HasTree(s, t) <==> s.tree == Some(t)
  }

  ghost predicate LocksOk(s: State) {
    && (forall t, q {:trigger LockOk(s, t, q)} :: LockOk(s, t, q))
    && (forall t {:trigger TreeOk(s, t)} :: TreeOk(s, t))
  }

  /** Program counter, status and list membership of one thread agree. */
  ghost predicate ThreadOk(s: State, t: Tid)
    requires t in s.threads
  {
    var th := s.threads[t];
    && t < s.nextTid
    && th.task in s.tasks
    && (th.status == Blocked <==> th.pc == WaitBlocked)
    && (th.status == Dead <==> th.pc == Gone)
    && (th.status == Uninitialized ==> th.pc == Idle)
    && (th.collected.Some? <==> th.pc == WaitCollect)
    && (if Dying(th.pc) || th.pc == Gone then t in s.tasks[th.task].zombies else t in s.tasks[th.task].threads)
    && (th.pc == WaitBlocked ==> t in s.tasks[th.task].waiting)
    && (th.task == s.init ==> !Dying(th.pc) && !th.pc.VanWantTree? && !th.pc.VanWantMux? && !th.pc.VanHasBoth?)
  }

  /** What a program counter says about other objects. */
  ghost predicate PcOk(s: State, pl: Places, t: Tid)
    requires t in s.threads && s.threads[t].task in s.tasks
  {
    var p := s.threads[t].task;
    var k := s.tasks[p];
    match s.threads[t].pc
    case ForkWantMux(c, ct) => c in pl && pl[c] == Forming(t) && ChildThread(s, c, ct)
    case ForkHasMux(c, ct) => c in pl && pl[c] == Forming(t) && ChildThread(s, c, ct)
    case ForkLinked(c, ct) => c in pl && pl[c] == Live && ChildThread(s, c, ct)
    case VanFree =>
      && k.last == None && |k.zombies| > 0 && k.zombies[|k.zombies| - 1] == t
      && k.numVanished == |k.vanished|
    case VanWantInit => Alone(s, p, t) && k.vanished != [] && k.numVanished == |k.vanished|
    case VanHasInit => Alone(s, p, t) && k.vanished != [] && k.numVanished == |k.vanished|
    case VanWantTree2 => Alone(s, p, t) && k.vanished == []
    case VanHasTree2 => Alone(s, p, t) && k.vanished == []
    case VanWantTarget(q, orphan) => Alone(s, p, t) && k.vanished == [] && TargetOk(s, p, q, orphan)
    case VanHasTarget(q, orphan) => Alone(s, p, t) && k.vanished == [] && q in s.tasks && s.tasks[q].listed && q != p
    case _ => true
  }

  ghost predicate ChildThread(s: State, c: Pid, ct: Tid) {
    c in s.tasks && s.tasks[c].threads == [ct] && ct in s.threads && s.threads[ct].status == Uninitialized
  }

  ghost predicate Alone(s: State, p: Pid, t: Tid)
    requires p in s.tasks
  {
    s.tasks[p].last == Some(t) && s.tasks[p].zombies == [t]
  }

  ghost predicate TargetOk(s: State, p: Pid, q: Pid, orphan: bool)
    requires p in s.tasks
  {
    && q in s.tasks && s.tasks[q].listed && q != p
    && (orphan ==> q == s.init && !(s.tasks[p].parent in s.tasks && s.tasks[s.tasks[p].parent].listed))
    && (!orphan ==> q == s.tasks[p].parent)
  }

  /** Two forking threads never wait for the same child. */
  ghost predicate ForkApart(s: State, t: Tid, u: Tid)
    requires t in s.threads && u in s.threads
  {
    s.threads[t].pc.ForkLinked? && s.threads[u].pc.ForkLinked? && s.threads[t].pc.child == s.threads[u].pc.child
    ==> t == u
  }

  /** Lists of one task hold the right threads, once each, and counters equal lengths. */
  ghost predicate TaskOk(s: State, p: Pid)
    requires p in s.tasks
  {
    var k := s.tasks[p];
    && 0 < s.init <= p < s.nextPid && k.parent < p
    && NoDup(k.threads) && NoDup(k.zombies) && NoDup(k.waiting) && NoDup(k.vanished) && NoDup(k.active)
    && (forall t {:trigger MemberOk(s, p, t)} :: MemberOk(s, p, t))
    && k.numThreads == |k.threads|
    && k.numWaiting == |k.waiting|
    && (k.last == None ==> k.numZombies == |k.zombies| && k.numThreads + k.numZombies == k.totalThreads)
    && (k.listed <==> k.threads != [])
    && (k.listed ==> k.last == None && k.numActive == |k.active| && k.numVanished == |k.vanished|)
    && (!k.listed ==> k.active == [] && k.waiting == [])
  }

  ghost predicate MemberOk(s: State, p: Pid, t: Tid)
    requires p in s.tasks
  {
    var k := s.tasks[p];
    && (t in k.threads ==> t in s.threads && s.threads[t].task == p && !Dying(s.threads[t].pc)
                           && s.threads[t].pc != Gone)
    && (t in k.zombies ==> t in s.threads && s.threads[t].task == p
                           && (Dying(s.threads[t].pc) || s.threads[t].pc == Gone))
    && (t in k.waiting ==> t in s.threads && s.threads[t].task == p && s.threads[t].pc == WaitBlocked)
  }

  /** The task at `p` is in place pl[p], as seen from the task. */
  ghost predicate PlaceOk(s: State, pl: Places, p: Pid)
    requires p in s.tasks
  {
    && p in pl
    && match pl[p]
       case Forming(t) =>
         && s.tasks[p].listed && t in s.threads && s.threads[t].task == s.tasks[p].parent && p != s.init
         && ((s.threads[t].pc.ForkWantMux? || s.threads[t].pc.ForkHasMux?) && s.threads[t].pc.child == p)
       case Live => s.tasks[p].listed
       case Carried(t) => !s.tasks[p].listed && t in s.threads && s.threads[t].task == p && Dying(s.threads[t].pc)
       case OnList(q) => !s.tasks[p].listed && q in s.tasks && p in s.tasks[q].vanished && Corpse(s, p)
       case Held(w) =>
         !s.tasks[p].listed && w in s.threads && s.threads[w].collected == Some(p) && Corpse(s, p)
  }

  /** A task that is ready to be freed. */
  ghost predicate Corpse(s: State, p: Pid)
    requires p in s.tasks
  {
    && s.tasks[p].last.Some? && s.tasks[p].zombies == [s.tasks[p].last.value] && s.tasks[p].vanished == []
    && s.tasks[p].last.value in s.threads && s.threads[s.tasks[p].last.value].pc == Gone
    && s.threads[s.tasks[p].last.value].task == p
  }

  /** ... and as seen from whoever has it: nobody else does. */
  ghost predicate CarriesOk(s: State, pl: Places, t: Tid)
    requires t in s.threads
  {
    && (Dying(s.threads[t].pc) ==> s.threads[t].task in pl && pl[s.threads[t].task] == Carried(t))
    && (s.threads[t].collected.Some? ==>
          s.threads[t].collected.value in pl && pl[s.threads[t].collected.value] == Held(t))
  }

  ghost predicate ListsOk(s: State, pl: Places, q: Pid, p: Pid)
    requires q in s.tasks
  {
    && (p in s.tasks[q].vanished ==> p in s.tasks && p in pl && pl[p] == OnList(q))
    && (p in s.tasks[q].active ==> p in s.tasks && s.tasks[p].parent == q && Linked(s, pl, p))
  }

  /** On its parent's active list: linked by fork and not yet unlinked by its last thread. */
  ghost predicate Linked(s: State, pl: Places, p: Pid)
  {
    && p in pl
    && (pl[p] == Live
        || (pl[p].Carried? && pl[p].who in s.threads && !s.threads[pl[p].who].pc.VanHasTarget?))
  }

  ghost predicate OnParentsList(s: State, pl: Places, p: Pid)
    requires p in s.tasks
  {
    var q := s.tasks[p].parent;
    Linked(s, pl, p) && q in s.tasks && s.tasks[q].listed ==> p in s.tasks[q].active
  }

  /** A child about to report has left the active list but its waiter is still queued. */
  ghost function Reporting(s: State, q: Pid): nat
    requires q in s.tasks
  {
    if s.tasks[q].mux.Some? && s.tasks[q].mux.value in s.threads
       && s.threads[s.tasks[q].mux.value].pc == VanHasTarget(q, false) then 1 else 0
  }

  /** Blocked waiters never outnumber the active children. */
  ghost predicate Covered(s: State, q: Pid)
    requires q in s.tasks
  {
    s.tasks[q].listed ==> |s.tasks[q].waiting| <= |s.tasks[q].active| + Reporting(s, q)
  }

  /** A task does not keep a dead child from its own waiters. */
  ghost predicate NotBoth(s: State, q: Pid)
    requires q in s.tasks
  {
    s.tasks[q].waiting == [] || s.tasks[q].vanished == []
  }

  /** Every pid ever given out is a task that still exists or was reaped, once. */
  ghost predicate Accounted(s: State) {
    && NoDup(s.reaped)
    && (forall p {:trigger p in s.reaped} :: p in s.reaped ==> s.init <= p < s.nextPid && p !in s.tasks)
    && (forall p {:trigger p in s.tasks} :: s.init <= p < s.nextPid ==> p in s.tasks || p in s.reaped)
  }

  ghost predicate ThreadsOk(s: State, pl: Places) {
    forall t {:trigger ThreadOk(s, t)} {:trigger PcOk(s, pl, t)} {:trigger CarriesOk(s, pl, t)} ::
      t in s.threads ==> ThreadOk(s, t) && PcOk(s, pl, t) && CarriesOk(s, pl, t)
  }

  ghost predicate ForksApart(s: State) {
    forall t, u {:trigger ForkApart(s, t, u)} :: t in s.threads && u in s.threads ==> ForkApart(s, t, u)
  }

  ghost predicate TasksOk(s: State) {
    forall p {:trigger TaskOk(s, p)} :: p in s.tasks ==> TaskOk(s, p)
  }

  ghost predicate PlacesOk(s: State, pl: Places) {
    && pl.Keys == s.tasks.Keys
    && (forall p {:trigger PlaceOk(s, pl, p)} {:trigger OnParentsList(s, pl, p)} ::
          p in s.tasks ==> PlaceOk(s, pl, p) && OnParentsList(s, pl, p))
    && (forall q, p {:trigger ListsOk(s, pl, q, p)} :: q in s.tasks ==> ListsOk(s, pl, q, p))
  }

  ghost predicate CountsOk(s: State) {
    forall q {:trigger Covered(s, q)} {:trigger NotBoth(s, q)} ::
      q in s.tasks ==> Covered(s, q) && (q != s.init ==> NotBoth(s, q))
  }

  ghost predicate InvAt(s: State, pl: Places) {
    && s.init in s.tasks && s.tasks[s.init].listed
    && LocksOk(s)
    && ThreadsOk(s, pl)
    && ForksApart(s)
    && TasksOk(s)
    && PlacesOk(s, pl)
    && CountsOk(s)
    && Accounted(s)
  }
}
