/** Every step keeps the invariant, and no affirm of the source fails. */
module TaskLifeProofs {
  import opened Seqs
  import opened TaskLife
  import opened TaskLifeInvariant

  ghost predicate Stepping(s: State, pl: Places, t: Tid) {
    InvAt(s, pl) && t in s.threads && s.threads[t].status == Ready && s.threads[t].task in s.tasks
  }

  // ------------------------------------------------------------------ locks

  /** t moves from holding h to holding h'; everyone else holds what they held. */
  ghost predicate LockMove(s: State, s': State, t: Tid) {
    var h := Holds(s, t);
    var h' := Holds(s', t);
    && (forall u {:trigger Holds(s', u)} {:trigger HasTree(s', u)} ::
          u != t ==> Holds(s', u) == Holds(s, u) && HasTree(s', u) == HasTree(s, u))
    && (forall q {:trigger MuxAt(s', q)} :: MuxAt(s', q) == MuxAfter(h, h', t, q, MuxAt(s, q)))
    && (h'.Some? && h' != h ==> MuxAt(s, h'.value) == None)
    && s'.tree == (if HasTree(s', t) then Some(t) else if HasTree(s, t) then None else s.tree)
    && (HasTree(s', t) && !HasTree(s, t) ==> s.tree == None)
  }

  ghost function MuxAfter(h: Option<Pid>, h': Option<Pid>, t: Tid, q: Pid, m: Option<Tid>): Option<Tid> {
    if h' == Some(q) then Some(t) else if h == Some(q) then None else m
  }

  lemma LocksKept(s: State, s': State, t: Tid)
    requires LocksOk(s) && LockMove(s, s', t)
    ensures LocksOk(s')
  {
    forall u, q
      ensures LockOk(s', u, q)
    {
      assert LockOk(s, u, q) && LockOk(s, t, q);
    }
    forall u
      ensures TreeOk(s', u)
    {
      assert TreeOk(s, u) && TreeOk(s, t);
    }
  }

  // ------------------------------------------------------------------ steps that only move a program counter

  /** Threads other than t are the same, tasks differ in their mutex at most. */
  ghost predicate OnlyPc(s: State, s': State, t: Tid) {
    && t in s.threads && s'.threads.Keys == s.threads.Keys && s'.tasks.Keys == s.tasks.Keys
    && (forall u {:trigger s'.threads[u]} :: u in s.threads && u != t ==> s'.threads[u] == s.threads[u])
    && (forall p {:trigger s'.tasks[p]} :: p in s.tasks ==> s'.tasks[p] == s.tasks[p].(mux := s'.tasks[p].mux))
    && s'.threads[t] == s.threads[t].(pc := s'.threads[t].pc)
    && s'.init == s.init && s'.nextPid == s.nextPid && s'.nextTid == s.nextTid && s'.reaped == s.reaped
    && (forall p {:trigger s'.tasks[p]} :: p in s.tasks ==> MuxMove(s.tasks[p].mux, s'.tasks[p].mux, t))
  }

  /** Unchanged, taken by t or released by t. */
  ghost predicate MuxMove(m: Option<Tid>, m': Option<Tid>, t: Tid) {
    m' == m || (m == None && m' == Some(t)) || (m == Some(t) && m' == None)
  }

  /** A program counter that leaves every list and place as it is. */
  ghost predicate Plain(pc: Pc) {
    pc != Gone && pc != WaitBlocked && pc != WaitCollect && !pc.VanHasTarget? && !pc.ForkLinked?
  }

  ghost predicate SameKind(pc: Pc, pc': Pc) {
    && Plain(pc) && Plain(pc') && (Dying(pc) <==> Dying(pc'))
    && ((pc.ForkWantMux? || pc.ForkHasMux?) ==> (pc'.ForkWantMux? || pc'.ForkHasMux?) && pc'.child == pc.child)
  }

  lemma PcThreads(s: State, s': State, pl: Places, t: Tid)
    requires ThreadsOk(s, pl) && OnlyPc(s, s', t) && SameKind(s.threads[t].pc, s'.threads[t].pc)
    requires ThreadOk(s', t) && PcOk(s', pl, t)
    ensures ThreadsOk(s', pl)
  {
    forall u | u in s'.threads
      ensures ThreadOk(s', u) && PcOk(s', pl, u) && CarriesOk(s', pl, u)
    {
      assert ThreadOk(s, u) && PcOk(s, pl, u) && CarriesOk(s, pl, u);
    }
  }

  lemma PcTasks(s: State, s': State, t: Tid)
    requires TasksOk(s) && OnlyPc(s, s', t) && SameKind(s.threads[t].pc, s'.threads[t].pc)
    ensures TasksOk(s')
  {
    forall p | p in s'.tasks
      ensures TaskOk(s', p)
    {
      assert TaskOk(s, p);
      forall u
        ensures MemberOk(s', p, u)
      {
        assert MemberOk(s, p, u);
      }
    }
  }

  lemma PcPlaces(s: State, s': State, pl: Places, t: Tid)
    requires PlacesOk(s, pl) && OnlyPc(s, s', t) && SameKind(s.threads[t].pc, s'.threads[t].pc)
    ensures PlacesOk(s', pl)
  {
    forall p | p in s'.tasks
      ensures PlaceOk(s', pl, p) && OnParentsList(s', pl, p)
    {
      assert PlaceOk(s, pl, p) && OnParentsList(s, pl, p);
    }
    forall q, p | q in s'.tasks
      ensures ListsOk(s', pl, q, p)
    {
      assert ListsOk(s, pl, q, p);
    }
  }

  lemma PcCounts(s: State, s': State, t: Tid)
    requires CountsOk(s) && ForksApart(s) && Accounted(s)
    requires OnlyPc(s, s', t) && SameKind(s.threads[t].pc, s'.threads[t].pc)
    ensures CountsOk(s') && ForksApart(s') && Accounted(s')
  {
    forall q | q in s'.tasks
      ensures Covered(s', q) && (q != s'.init ==> NotBoth(s', q))
    {
      assert Covered(s, q) && (q != s.init ==> NotBoth(s, q));
    }
    forall u, v | u in s'.threads && v in s'.threads
      ensures ForkApart(s', u, v)
    {
      assert ForkApart(s, u, v);
    }
  }

  lemma PcMove(s: State, s': State, pl: Places, t: Tid)
    requires InvAt(s, pl) && OnlyPc(s, s', t) && SameKind(s.threads[t].pc, s'.threads[t].pc)
    requires LockMove(s, s', t) && ThreadOk(s', t) && PcOk(s', pl, t)
    ensures InvAt(s', pl)
  {
    LocksKept(s, s', t);
    PcThreads(s, s', pl, t);
    PcTasks(s, s', t);
    PcPlaces(s, s', pl, t);
    PcCounts(s, s', t);
  }

  /** The lock acquisitions that change nothing else, with the mutex they take. */
  ghost predicate MuxEntry(init: Pid, p: Pid, pc: Pc, pc': Pc, q: Pid) {
    || (pc.ForkWantMux? && pc' == ForkHasMux(pc.child, pc.thread) && q == p)
    || (pc == WaitWantMux && pc' == WaitHasMux && q == p)
    || (pc == VanWantMux && pc' == VanHasBoth && q == p)
    || (pc == VanWantInit && pc' == VanHasInit && q == init)
  }

  lemma EntrySameKind(init: Pid, p: Pid, pc: Pc, pc': Pc, q: Pid)
    requires MuxEntry(init, p, pc, pc', q)
    ensures SameKind(pc, pc')
  {
  }

  lemma TakeMuxShape(s: State, t: Tid, q: Pid, pc: Pc)
    requires t in s.threads && q in s.tasks && s.tasks[q].mux == None
    ensures TakeMux(s, t, q, pc).Step? && OnlyPc(s, TakeMux(s, t, q, pc).s, t)
  {
  }

  lemma TakeMuxLocks(s: State, t: Tid, q: Pid, pc: Pc)
    requires t in s.threads && q in s.tasks && s.tasks[q].mux == None && LocksOk(s)
    requires MuxEntry(s.init, s.threads[t].task, s.threads[t].pc, pc, q)
    ensures TakeMux(s, t, q, pc).Step? && LockMove(s, TakeMux(s, t, q, pc).s, t)
  {
    assert TreeOk(s, t);
  }

  lemma TakeMuxThread(s: State, pl: Places, t: Tid, q: Pid, pc: Pc)
    requires t in s.threads && q in s.tasks && s.tasks[q].mux == None
    requires ThreadOk(s, t) && PcOk(s, pl, t)
    requires MuxEntry(s.init, s.threads[t].task, s.threads[t].pc, pc, q)
    ensures TakeMux(s, t, q, pc).Step?
    ensures ThreadOk(TakeMux(s, t, q, pc).s, t) && PcOk(TakeMux(s, t, q, pc).s, pl, t)
  {
  }

  lemma TakeMuxKeeps(s: State, pl: Places, t: Tid, q: Pid, pc: Pc)
    requires Stepping(s, pl, t) && MuxEntry(s.init, s.threads[t].task, s.threads[t].pc, pc, q)
    ensures q in s.tasks
    ensures s.tasks[q].mux == None ==> TakeMux(s, t, q, pc).Step? && InvAt(TakeMux(s, t, q, pc).s, pl)
  {
    assert ThreadOk(s, t) && PcOk(s, pl, t);
    if s.tasks[q].mux == None {
      EntrySameKind(s.init, s.threads[t].task, s.threads[t].pc, pc, q);
      TakeMuxShape(s, t, q, pc);
      TakeMuxLocks(s, t, q, pc);
      TakeMuxThread(s, pl, t, q, pc);
      PcMove(s, TakeMux(s, t, q, pc).s, pl, t);
    }
  }

  lemma TakeTreeLocks(s: State, t: Tid, pc: Pc)
    requires t in s.threads && s.tree == None && LocksOk(s) && HeldMux(s.init, s.threads[t].task, pc) == Holds(s, t)
    requires HoldsTree(pc)
    ensures TakeTree(s, t, pc).Step? && LockMove(s, TakeTree(s, t, pc).s, t)
  {
    assert TreeOk(s, t);
    if Holds(s, t).Some? {
      assert LockOk(s, t, Holds(s, t).value);
    }
  }

  lemma TakeTreeShape(s: State, t: Tid, pc: Pc)
    requires t in s.threads && s.tree == None
    ensures TakeTree(s, t, pc).Step? && OnlyPc(s, TakeTree(s, t, pc).s, t)
  {
  }

  lemma TakeTreeThread(s: State, pl: Places, t: Tid, pc: Pc)
    requires t in s.threads && s.tree == None && ThreadOk(s, t) && PcOk(s, pl, t)
    requires (s.threads[t].pc == VanWantTree && pc == VanWantMux) || (s.threads[t].pc == VanWantTree2
             && pc == VanHasTree2)
    ensures TakeTree(s, t, pc).Step?
    ensures ThreadOk(TakeTree(s, t, pc).s, t) && PcOk(TakeTree(s, t, pc).s, pl, t)
  {
  }

  lemma TakeTreeKeeps(s: State, pl: Places, t: Tid, pc: Pc)
    requires Stepping(s, pl, t)
    requires (s.threads[t].pc == VanWantTree && pc == VanWantMux) || (s.threads[t].pc == VanWantTree2
             && pc == VanHasTree2)
    ensures s.tree == None ==> TakeTree(s, t, pc).Step? && InvAt(TakeTree(s, t, pc).s, pl)
  {
    assert ThreadOk(s, t) && PcOk(s, pl, t);
    if s.tree == None {
      TakeTreeLocks(s, t, pc);
      TakeTreeShape(s, t, pc);
      TakeTreeThread(s, pl, t, pc);
      PcMove(s, TakeTree(s, t, pc).s, pl, t);
    }
  }

  lemma FindTargetShape(s: State, t: Tid)
    requires t in s.threads && s.threads[t].task in s.tasks && s.threads[t].pc == VanHasTree2 && LocksOk(s)
    ensures FindTarget(s, t).Step? && OnlyPc(s, FindTarget(s, t).s, t) && LockMove(s, FindTarget(s, t).s, t)
  {
    assert TreeOk(s, t);
  }

  lemma FindTargetThread(s: State, pl: Places, t: Tid)
    requires t in s.threads && s.threads[t].pc == VanHasTree2 && ThreadOk(s, t) && PcOk(s, pl, t)
    requires TaskOk(s, s.threads[t].task) && s.init in s.tasks && s.tasks[s.init].listed
    ensures FindTarget(s, t).Step? && ThreadOk(FindTarget(s, t).s, t) && PcOk(FindTarget(s, t).s, pl, t)
  {
  }

  lemma FindTargetKeeps(s: State, pl: Places, t: Tid)
    requires Stepping(s, pl, t) && s.threads[t].pc == VanHasTree2
    ensures FindTarget(s, t).Step? && InvAt(FindTarget(s, t).s, pl)
  {
    assert ThreadOk(s, t) && PcOk(s, pl, t) && TaskOk(s, s.threads[t].task);
    FindTargetShape(s, t);
    FindTargetThread(s, pl, t);
    PcMove(s, FindTarget(s, t).s, pl, t);
  }
}
