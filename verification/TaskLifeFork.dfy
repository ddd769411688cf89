/** Creating threads and tasks keeps the invariant. */
module TaskLifeFork {
  import opened Seqs
  import opened TaskLife
  import opened TaskLifeInvariant
  import opened TaskLifeProofs

  ghost predicate At(s: State, t: Tid, pc: Pc) {
    t in s.threads && s.threads[t].task in s.tasks && s.threads[t].pc == pc && s.threads[t].status == Ready
  }

  // ------------------------------------------------------------------ calls that only enter

  lemma EnterKeeps(s: State, pl: Places, t: Tid, call: Syscall)
    requires Stepping(s, pl, t) && (call.Wait? || call.Vanish?)
    ensures CallStep(s, t, call) != Panic
    ensures CallStep(s, t, call).Step? ==> InvAt(CallStep(s, t, call).s, pl)
  {
    assert ThreadOk(s, t);
    if CallStep(s, t, call).Step? {
      EnterShape(s, t, call);
      EnterLocks(s, t, call);
      var s' := CallStep(s, t, call).s;
      assert ThreadOk(s', t) && PcOk(s', pl, t);
      PcMove(s, s', pl, t);
    }
  }

  lemma EnterShape(s: State, t: Tid, call: Syscall)
    requires t in s.threads && s.threads[t].task in s.tasks && (call.Wait? || call.Vanish?)
    requires CallStep(s, t, call).Step?
    ensures var s' := CallStep(s, t, call).s;
            OnlyPc(s, s', t) && s.threads[t].pc == Idle && SameKind(Idle, s'.threads[t].pc)
  {
  }

  lemma EnterLocks(s: State, t: Tid, call: Syscall)
    requires t in s.threads && s.threads[t].task in s.tasks && (call.Wait? || call.Vanish?) && LocksOk(s)
    requires CallStep(s, t, call).Step?
    ensures LockMove(s, CallStep(s, t, call).s, t)
  {
    assert TreeOk(s, t);
  }

  // ------------------------------------------------------------------ thread_fork

  ghost function AfterSpawn(s: State, t: Tid): State
    requires t in s.threads && s.threads[t].task in s.tasks
  {
    MakeRunnable(CreateTcb(s, s.threads[t].task), s.nextTid)
  }

  lemma SpawnThread(s: State, pl: Places, t: Tid, u: Tid)
    requires At(s, t, Idle) && ThreadOk(s, t) && u in AfterSpawn(s, t).threads
    requires u in s.threads ==> ThreadOk(s, u) && CarriesOk(s, pl, u)
    ensures ThreadOk(AfterSpawn(s, t), u) && CarriesOk(AfterSpawn(s, t), pl, u)
  {
  }

  lemma SpawnPc(s: State, pl: Places, t: Tid, u: Tid)
    requires At(s, t, Idle) && u in s.threads && ThreadOk(s, u) && PcOk(s, pl, u) && s.nextTid !in s.threads
    requires t in s.tasks[s.threads[t].task].threads
    ensures u in AfterSpawn(s, t).threads && PcOk(AfterSpawn(s, t), pl, u)
  {
    var pc := s.threads[u].pc;
    if pc.ForkWantMux? || pc.ForkHasMux? || pc.ForkLinked? {
      assert ChildThread(s, pc.child, pc.thread);
      assert s.threads[t].task != pc.child;
    }
  }

  lemma SpawnThreads(s: State, pl: Places, t: Tid)
    requires At(s, t, Idle) && ThreadsOk(s, pl) && s.nextTid !in s.threads
    ensures ThreadsOk(AfterSpawn(s, t), pl)
  {
    var s' := AfterSpawn(s, t);
    assert ThreadOk(s, t);
    forall u | u in s'.threads
      ensures ThreadOk(s', u) && PcOk(s', pl, u) && CarriesOk(s', pl, u)
    {
      assert u in s.threads ==> ThreadOk(s, u) && PcOk(s, pl, u) && CarriesOk(s, pl, u);
      SpawnThread(s, pl, t, u);
      if u in s.threads {
        SpawnPc(s, pl, t, u);
      }
    }
  }

  lemma SpawnTasks(s: State, pl: Places, t: Tid)
    requires At(s, t, Idle) && TasksOk(s) && ThreadsOk(s, pl)
    ensures TasksOk(AfterSpawn(s, t))
  {
    var s' := AfterSpawn(s, t);
    assert ThreadOk(s, t);
    assert s.nextTid !in s.threads by {
      assert s.nextTid in s.threads ==> ThreadOk(s, s.nextTid);
    }
    forall p | p in s'.tasks
      ensures TaskOk(s', p)
    {
      assert TaskOk(s, p);
      assert MemberOk(s, p, s.nextTid) && MemberOk(s, p, t);
      if p == s.threads[t].task {
        NoDupConcat(s.tasks[p].threads, [s.nextTid]);
      }
      forall u
        ensures MemberOk(s', p, u)
      {
        assert MemberOk(s, p, u);
      }
    }
  }

  lemma SpawnPlaces(s: State, pl: Places, t: Tid)
    requires At(s, t, Idle) && PlacesOk(s, pl) && s.nextTid !in s.threads
    ensures PlacesOk(AfterSpawn(s, t), pl)
  {
    var s' := AfterSpawn(s, t);
    forall p | p in s'.tasks
      ensures PlaceOk(s', pl, p) && OnParentsList(s', pl, p)
    {
      assert PlaceOk(s, pl, p) && OnParentsList(s, pl, p);
    }
    forall q, p | q in s'.tasks
      ensures ListsOk(s', pl, q, p)
    {
      assert ListsOk(s, pl, q, p);
    }
  }

  lemma SpawnCounts(s: State, t: Tid)
    requires At(s, t, Idle) && CountsOk(s) && ForksApart(s) && Accounted(s) && s.nextTid !in s.threads
    ensures CountsOk(AfterSpawn(s, t)) && ForksApart(AfterSpawn(s, t)) && Accounted(AfterSpawn(s, t))
  {
    var s' := AfterSpawn(s, t);
    forall q | q in s'.tasks
      ensures Covered(s', q) && (q != s'.init ==> NotBoth(s', q))
    {
      assert Covered(s, q) && (q != s.init ==> NotBoth(s, q));
    }
    forall u, v | u in s'.threads && v in s'.threads
      ensures ForkApart(s', u, v)
    {
      assert u in s.threads && v in s.threads ==> ForkApart(s, u, v);
    }
  }

  lemma SpawnLocks(s: State, t: Tid)
    requires At(s, t, Idle) && LocksOk(s) && s.nextTid !in s.threads
    ensures LockMove(s, AfterSpawn(s, t), t)
  {
    assert TreeOk(s, t);
  }

  lemma SpawnKeeps(s: State, pl: Places, t: Tid)
    requires Stepping(s, pl, t) && At(s, t, Idle)
    ensures InvAt(AfterSpawn(s, t), pl)
  {
    assert s.nextTid in s.threads ==> ThreadOk(s, s.nextTid);
    SpawnLocks(s, t);
    LocksKept(s, AfterSpawn(s, t), t);
    SpawnThreads(s, pl, t);
    SpawnTasks(s, pl, t);
    SpawnPlaces(s, pl, t);
    SpawnCounts(s, t);
  }

  // ------------------------------------------------------------------ fork: control blocks

  ghost function AfterFork(s: State, t: Tid): State
    requires At(s, t, Idle)
  {
    var c := s.nextPid;
    var s1 := CreateTcb(WithTask(s, c, NewTask(s.threads[t].task)).(nextPid := c + 1), c);
    s1.(threads := s1.threads[t := s.threads[t].(pc := ForkWantMux(c, s.nextTid))])
  }

  ghost predicate Fresh(s: State) {
    s.nextPid !in s.tasks && s.nextTid !in s.threads
  }

  lemma ForkStepIs(s: State, t: Tid)
    requires At(s, t, Idle) && Fresh(s) && s.tasks[s.threads[t].task].numThreads == 1
    ensures CallStep(s, t, Fork) == Step(AfterFork(s, t))
  {
  }

  lemma ForkThread(s: State, pl: Places, t: Tid, u: Tid)
    requires At(s, t, Idle) && Fresh(s) && u in AfterFork(s, t).threads && pl.Keys == s.tasks.Keys
    requires u in s.threads ==> ThreadOk(s, u) && CarriesOk(s, pl, u)
    requires s.init in s.tasks
    ensures ThreadOk(AfterFork(s, t), u) && CarriesOk(AfterFork(s, t), pl[s.nextPid := Forming(t)], u)
  {
  }

  /** Adding a task and a thread changes nothing that another program counter refers to. */
  lemma PcGrow(s: State, s': State, pl: Places, pl': Places, u: Tid)
    requires u in s.threads && ThreadOk(s, u) && PcOk(s, pl, u) && s'.init == s.init
    requires u in s'.threads && s'.threads[u] == s.threads[u]
    requires forall p {:trigger p in s'.tasks} :: p in s.tasks ==> p in s'.tasks && s'.tasks[p] == s.tasks[p]
    requires forall p {:trigger p in pl'} :: p in pl ==> p in pl' && pl'[p] == pl[p]
    requires forall x {:trigger x in s'.threads} ::
               x in s.threads ==> x in s'.threads && s'.threads[x].status == s.threads[x].status
    requires var q := s.tasks[s.threads[u].task].parent; q in s'.tasks ==> q in s.tasks
    ensures s'.threads[u].task in s'.tasks && PcOk(s', pl', u)
  {
    assert s.threads[u].task in s'.tasks;
  }

  lemma ForkPc(s: State, pl: Places, t: Tid, u: Tid)
    requires At(s, t, Idle) && Fresh(s) && u in s.threads && ThreadOk(s, u) && PcOk(s, pl, u) && pl.Keys == s.tasks.Keys
    requires TaskOk(s, s.threads[u].task)
    ensures u in AfterFork(s, t).threads && u != s.nextTid && PcOk(AfterFork(s, t), pl[s.nextPid := Forming(t)], u)
  {
    if u != t {
      PcGrow(s, AfterFork(s, t), pl, pl[s.nextPid := Forming(t)], u);
    }
  }

  lemma ForkThreads(s: State, pl: Places, t: Tid)
    requires At(s, t, Idle) && Fresh(s) && ThreadsOk(s, pl) && pl.Keys == s.tasks.Keys && s.init in s.tasks
    requires TasksOk(s)
    ensures ThreadsOk(AfterFork(s, t), pl[s.nextPid := Forming(t)])
  {
    var s' := AfterFork(s, t);
    var pl' := pl[s.nextPid := Forming(t)];
    forall u | u in s'.threads
      ensures ThreadOk(s', u) && PcOk(s', pl', u) && CarriesOk(s', pl', u)
    {
      assert u in s.threads ==> ThreadOk(s, u) && PcOk(s, pl, u) && CarriesOk(s, pl, u);
      ForkThread(s, pl, t, u);
      if u in s.threads {
        assert TaskOk(s, s.threads[u].task);
        ForkPc(s, pl, t, u);
      }
    }
  }

  lemma ForkTasks(s: State, t: Tid)
    requires At(s, t, Idle) && Fresh(s) && TasksOk(s)
    ensures TasksOk(AfterFork(s, t))
  {
    var s' := AfterFork(s, t);
    assert TaskOk(s, s.threads[t].task);
    forall p | p in s'.tasks
      ensures TaskOk(s', p)
    {
      assert p in s.tasks ==> TaskOk(s, p);
      assert p in s.tasks ==> MemberOk(s, p, s.nextTid);
      forall u
        ensures MemberOk(s', p, u)
      {
        assert p in s.tasks ==> MemberOk(s, p, u);
      }
    }
  }

  lemma ForkPlaces(s: State, pl: Places, t: Tid)
    requires At(s, t, Idle) && Fresh(s) && PlacesOk(s, pl) && s.init in s.tasks && s.threads[t].collected == None
             && TasksOk(s)
    ensures PlacesOk(AfterFork(s, t), pl[s.nextPid := Forming(t)])
  {
    var s' := AfterFork(s, t);
    var pl' := pl[s.nextPid := Forming(t)];
    forall p | p in s'.tasks
      ensures PlaceOk(s', pl', p) && OnParentsList(s', pl', p)
    {
      assert p in s.tasks ==> PlaceOk(s, pl, p) && OnParentsList(s, pl, p) && TaskOk(s, p);
    }
    forall q, p | q in s'.tasks
      ensures ListsOk(s', pl', q, p)
    {
      assert q in s.tasks ==> ListsOk(s, pl, q, p);
    }
  }

  lemma ForkCounts(s: State, t: Tid)
    requires At(s, t, Idle) && Fresh(s) && CountsOk(s) && ForksApart(s) && Accounted(s) && LocksOk(s)
    requires s.init < s.nextPid
    ensures CountsOk(AfterFork(s, t)) && ForksApart(AfterFork(s, t)) && Accounted(AfterFork(s, t))
  {
    var s' := AfterFork(s, t);
    forall q | q in s'.tasks
      ensures Covered(s', q) && (q != s'.init ==> NotBoth(s', q))
    {
      assert q in s.tasks ==> Covered(s, q) && (q != s.init ==> NotBoth(s, q));
    }
    forall u, v | u in s'.threads && v in s'.threads
      ensures ForkApart(s', u, v)
    {
      assert u in s.threads && v in s.threads ==> ForkApart(s, u, v);
    }
  }

  lemma ForkLocks(s: State, t: Tid)
    requires At(s, t, Idle) && LocksOk(s) && Fresh(s)
    ensures LockMove(s, AfterFork(s, t), t)
  {
    assert TreeOk(s, t);
  }

  lemma IsFresh(s: State, pl: Places, t: Tid)
    requires Stepping(s, pl, t)
    ensures Fresh(s) && s.init < s.nextPid
  {
    assert s.nextTid in s.threads ==> ThreadOk(s, s.nextTid);
    assert s.nextPid in s.tasks ==> TaskOk(s, s.nextPid);
    assert TaskOk(s, s.init);
  }

  lemma ForkKeeps(s: State, pl: Places, t: Tid)
    requires Stepping(s, pl, t) && At(s, t, Idle)
    ensures Fresh(s) && InvAt(AfterFork(s, t), pl[s.nextPid := Forming(t)])
  {
    IsFresh(s, pl, t);
    assert ThreadOk(s, t);
    ForkLocks(s, t);
    LocksKept(s, AfterFork(s, t), t);
    ForkThreads(s, pl, t);
    ForkTasks(s, t);
    ForkPlaces(s, pl, t);
    ForkCounts(s, t);
  }

  // ------------------------------------------------------------------ fork: link the child

  lemma LinkSafe(s: State, pl: Places, t: Tid, c: Pid, ct: Tid)
    requires At(s, t, ForkHasMux(c, ct)) && PlacesOk(s, pl) && PcOk(s, pl, t)
    ensures ForkLink(s, t, c, ct).Step?
  {
    forall q | q in s.tasks
      ensures c !in s.tasks[q].active && c !in s.tasks[q].vanished
    {
      assert ListsOk(s, pl, q, c);
    }
  }

  lemma LinkPc(s: State, pl: Places, t: Tid, c: Pid, ct: Tid, u: Tid)
    requires At(s, t, ForkHasMux(c, ct)) && ForkLink(s, t, c, ct).Step? && u in s.threads
    requires ThreadOk(s, u) && PcOk(s, pl, u) && PcOk(s, pl, t)
    requires s.tasks[s.threads[t].task].listed && s.threads[t].task != c
    ensures PcOk(ForkLink(s, t, c, ct).s, pl[c := Live], u)
  {
  }

  lemma LinkThread(s: State, pl: Places, t: Tid, c: Pid, ct: Tid, u: Tid)
    requires At(s, t, ForkHasMux(c, ct)) && ForkLink(s, t, c, ct).Step? && u in s.threads
    requires ThreadOk(s, u) && CarriesOk(s, pl, u) && c in pl && pl[c] == Forming(t)
    ensures ThreadOk(ForkLink(s, t, c, ct).s, u) && CarriesOk(ForkLink(s, t, c, ct).s, pl[c := Live], u)
  {
  }

  lemma LinkThreads(s: State, pl: Places, t: Tid, c: Pid, ct: Tid)
    requires At(s, t, ForkHasMux(c, ct)) && ForkLink(s, t, c, ct).Step? && ThreadsOk(s, pl)
    requires s.tasks[s.threads[t].task].listed && s.threads[t].task != c
    ensures ThreadsOk(ForkLink(s, t, c, ct).s, pl[c := Live])
  {
    var s' := ForkLink(s, t, c, ct).s;
    var pl' := pl[c := Live];
    assert PcOk(s, pl, t);
    forall u | u in s'.threads
      ensures ThreadOk(s', u) && PcOk(s', pl', u) && CarriesOk(s', pl', u)
    {
      assert ThreadOk(s, u) && PcOk(s, pl, u) && CarriesOk(s, pl, u);
      LinkThread(s, pl, t, c, ct, u);
      LinkPc(s, pl, t, c, ct, u);
    }
  }

  lemma LinkTasks(s: State, pl: Places, t: Tid, c: Pid, ct: Tid)
    requires At(s, t, ForkHasMux(c, ct)) && ForkLink(s, t, c, ct).Step? && TasksOk(s) && ThreadOk(s, t)
    ensures TasksOk(ForkLink(s, t, c, ct).s)
  {
    var s' := ForkLink(s, t, c, ct).s;
    forall p | p in s'.tasks
      ensures TaskOk(s', p)
    {
      assert TaskOk(s, p);
      if p == s.threads[t].task {
        NoDupConcat(s.tasks[p].active, [c]);
      }
      forall u
        ensures MemberOk(s', p, u)
      {
        assert MemberOk(s, p, u);
      }
    }
  }

  lemma LinkPlaces(s: State, pl: Places, t: Tid, c: Pid, ct: Tid)
    requires At(s, t, ForkHasMux(c, ct)) && ForkLink(s, t, c, ct).Step? && PlacesOk(s, pl) && PcOk(s, pl, t)
    ensures PlacesOk(ForkLink(s, t, c, ct).s, pl[c := Live])
  {
    var s' := ForkLink(s, t, c, ct).s;
    var pl' := pl[c := Live];
    assert PlaceOk(s, pl, c);
    forall p | p in s'.tasks
      ensures PlaceOk(s', pl', p) && OnParentsList(s', pl', p)
    {
      assert PlaceOk(s, pl, p) && OnParentsList(s, pl, p);
    }
    forall q, p | q in s'.tasks
      ensures ListsOk(s', pl', q, p)
    {
      assert ListsOk(s, pl, q, p);
    }
  }

  lemma LinkCounts(s: State, pl: Places, t: Tid, c: Pid, ct: Tid)
    requires At(s, t, ForkHasMux(c, ct)) && ForkLink(s, t, c, ct).Step? && CountsOk(s) && ForksApart(s) && Accounted(s)
    requires ThreadsOk(s, pl) && LockOk(s, t, s.threads[t].task)
    ensures var s' := ForkLink(s, t, c, ct).s; CountsOk(s') && ForksApart(s') && Accounted(s')
  {
    var s' := ForkLink(s, t, c, ct).s;
    forall q | q in s'.tasks
      ensures Covered(s', q) && (q != s'.init ==> NotBoth(s', q))
    {
      assert Covered(s, q) && (q != s.init ==> NotBoth(s, q));
    }
    forall u, v | u in s'.threads && v in s'.threads
      ensures ForkApart(s', u, v)
    {
      assert ForkApart(s, u, v);
      assert ThreadOk(s, u) && ThreadOk(s, v);
    }
  }

  lemma LinkLocks(s: State, t: Tid, c: Pid, ct: Tid)
    requires At(s, t, ForkHasMux(c, ct)) && ForkLink(s, t, c, ct).Step? && LocksOk(s)
    ensures LockMove(s, ForkLink(s, t, c, ct).s, t)
  {
    assert LockOk(s, t, s.threads[t].task) && TreeOk(s, t);
  }

  lemma LinkKeeps(s: State, pl: Places, t: Tid, c: Pid, ct: Tid)
    requires Stepping(s, pl, t) && At(s, t, ForkHasMux(c, ct))
    ensures ForkLink(s, t, c, ct).Step? && InvAt(ForkLink(s, t, c, ct).s, pl[c := Live])
  {
    var p := s.threads[t].task;
    assert ThreadOk(s, t) && PcOk(s, pl, t) && TaskOk(s, p) && PlaceOk(s, pl, c);
    assert TaskOk(s, c) && LockOk(s, t, p);
    LinkSafe(s, pl, t, c, ct);
    LinkLocks(s, t, c, ct);
    LocksKept(s, ForkLink(s, t, c, ct).s, t);
    LinkThreads(s, pl, t, c, ct);
    LinkTasks(s, pl, t, c, ct);
    LinkPlaces(s, pl, t, c, ct);
    LinkCounts(s, pl, t, c, ct);
  }

  // ------------------------------------------------------------------ fork: start the child

  lemma FinishPc(s: State, pl: Places, t: Tid, c: Pid, ct: Tid, u: Tid)
    requires At(s, t, ForkLinked(c, ct)) && ForkFinish(s, t, ct).Step? && u in s.threads
    requires ThreadOk(s, u) && PcOk(s, pl, u) && PcOk(s, pl, t) && ForkApart(s, t, u)
    requires forall p {:trigger MemberOk(s, p, ct)} :: p in s.tasks ==> MemberOk(s, p, ct)
    ensures PcOk(ForkFinish(s, t, ct).s, pl, u)
  {
    if s.threads[u].pc.ForkWantMux? || s.threads[u].pc.ForkHasMux? || s.threads[u].pc.ForkLinked? {
      assert s.threads[u].pc.child in s.tasks;
      assert MemberOk(s, s.threads[u].pc.child, ct) && MemberOk(s, c, ct);
    }
  }

  lemma FinishThread(s: State, pl: Places, t: Tid, c: Pid, ct: Tid, u: Tid)
    requires At(s, t, ForkLinked(c, ct)) && ForkFinish(s, t, ct).Step? && u in s.threads
    requires ThreadOk(s, u) && CarriesOk(s, pl, u)
    ensures ThreadOk(ForkFinish(s, t, ct).s, u) && CarriesOk(ForkFinish(s, t, ct).s, pl, u)
  {
  }

  lemma FinishThreads(s: State, pl: Places, t: Tid, c: Pid, ct: Tid)
    requires At(s, t, ForkLinked(c, ct)) && ForkFinish(s, t, ct).Step? && ThreadsOk(s, pl) && TasksOk(s)
             && ForksApart(s)
    ensures ThreadsOk(ForkFinish(s, t, ct).s, pl)
  {
    var s' := ForkFinish(s, t, ct).s;
    forall p | p in s.tasks
      ensures MemberOk(s, p, ct)
    {
      assert TaskOk(s, p);
    }
    forall u | u in s'.threads
      ensures ThreadOk(s', u) && PcOk(s', pl, u) && CarriesOk(s', pl, u)
    {
      assert ThreadOk(s, u) && PcOk(s, pl, u) && CarriesOk(s, pl, u) && PcOk(s, pl, t) && ForkApart(s, t, u);
      FinishThread(s, pl, t, c, ct, u);
      FinishPc(s, pl, t, c, ct, u);
    }
  }

  lemma FinishTasks(s: State, t: Tid, c: Pid, ct: Tid)
    requires At(s, t, ForkLinked(c, ct)) && ForkFinish(s, t, ct).Step? && TasksOk(s)
    ensures TasksOk(ForkFinish(s, t, ct).s)
  {
    var s' := ForkFinish(s, t, ct).s;
    forall p | p in s'.tasks
      ensures TaskOk(s', p)
    {
      assert TaskOk(s, p);
      forall u
        ensures MemberOk(s', p, u)
      {
        assert MemberOk(s, p, u);
      }
    }
  }

  lemma FinishPlaces(s: State, pl: Places, t: Tid, c: Pid, ct: Tid)
    requires At(s, t, ForkLinked(c, ct)) && ForkFinish(s, t, ct).Step? && PlacesOk(s, pl)
    ensures PlacesOk(ForkFinish(s, t, ct).s, pl)
  {
    var s' := ForkFinish(s, t, ct).s;
    forall p | p in s'.tasks
      ensures PlaceOk(s', pl, p) && OnParentsList(s', pl, p)
    {
      assert PlaceOk(s, pl, p) && OnParentsList(s, pl, p);
    }
    forall q, p | q in s'.tasks
      ensures ListsOk(s', pl, q, p)
    {
      assert ListsOk(s, pl, q, p);
    }
  }

  lemma FinishCounts(s: State, t: Tid, c: Pid, ct: Tid)
    requires At(s, t, ForkLinked(c, ct)) && ForkFinish(s, t, ct).Step? && CountsOk(s) && ForksApart(s) && Accounted(s)
    requires LocksOk(s)
    ensures var s' := ForkFinish(s, t, ct).s; CountsOk(s') && ForksApart(s') && Accounted(s') && LockMove(s, s', t)
  {
    var s' := ForkFinish(s, t, ct).s;
    assert TreeOk(s, t);
    forall q | q in s'.tasks
      ensures Covered(s', q) && (q != s'.init ==> NotBoth(s', q))
    {
      assert Covered(s, q) && (q != s.init ==> NotBoth(s, q));
    }
    forall u, v | u in s'.threads && v in s'.threads
      ensures ForkApart(s', u, v)
    {
      assert ForkApart(s, u, v);
    }
  }

  lemma FinishKeeps(s: State, pl: Places, t: Tid, c: Pid, ct: Tid)
    requires Stepping(s, pl, t) && At(s, t, ForkLinked(c, ct))
    ensures ForkFinish(s, t, ct).Step? && InvAt(ForkFinish(s, t, ct).s, pl)
  {
    assert ThreadOk(s, t) && PcOk(s, pl, t);
    FinishCounts(s, t, c, ct);
    LocksKept(s, ForkFinish(s, t, ct).s, t);
    FinishThreads(s, pl, t, c, ct);
    FinishTasks(s, t, c, ct);
    FinishPlaces(s, pl, t, c, ct);
  }
}
