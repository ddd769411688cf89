/** What fork, wait and vanish come to, in terms of lists, statuses and what the caller gets.

    No outcome is stated through a step function other than `Next`: each says which of the source's outcomes a thread
    inside a call meets, for every state that meets the invariant, hence every reachable one. */
module TaskLifeOutcomes {
  import opened Seqs
  import opened TaskLife
  import opened TaskLifeInvariant
  import opened TaskLifeTheorems
  import Wait = TaskLifeWait
  import Last = TaskLifeReport

  /** Thread t of task p can run and is at pc. */
  ghost predicate Stands(s: State, t: Tid, p: Pid, pc: Pc) {
    && t in s.threads && s.threads[t].status == Ready && s.threads[t].task == p && s.threads[t].pc == pc
    && p in s.tasks
  }

  /** The step changed no thread but those of `ts`, no task but those of `qs`, and handed out or reaped nothing. */
  ghost predicate Only(s: State, s': State, ts: set<Tid>, qs: set<Pid>) {
    && s'.threads.Keys == s.threads.Keys && s'.tasks.Keys == s.tasks.Keys
    && (forall u :: u in s.threads && u !in ts ==> s'.threads[u] == s.threads[u])
    && (forall q :: q in s.tasks && q !in qs ==> s'.tasks[q] == s.tasks[q])
    && s'.init == s.init && s'.nextPid == s.nextPid && s'.nextTid == s.nextTid && s'.reaped == s.reaped
  }

  /** The lists of children and of waiters. */
  ghost predicate Family(k: Task, active: seq<Pid>, vanished: seq<Pid>, waiting: seq<Tid>) {
    k.active == active && k.vanished == vanished && k.waiting == waiting
  }

  /** The threads of a task, and whether it can be found. */
  ghost predicate SameBody(k: Task, k': Task) {
    && k'.parent == k.parent && k'.listed == k.listed && k'.threads == k.threads && k'.zombies == k.zombies
    && k'.last == k.last
  }

  lemma Facts(s: State, t: Tid, p: Pid, pc: Pc) returns (pl: Places)
    requires Inv(s) && Stands(s, t, p, pc)
    ensures InvAt(s, pl) && ThreadOk(s, t) && PcOk(s, pl, t) && CarriesOk(s, pl, t) && TaskOk(s, p)
    ensures Covered(s, p) && PlaceOk(s, pl, p)
  {
    pl :| InvAt(s, pl);
    assert ThreadOk(s, t);
    assert Covered(s, p) && PlaceOk(s, pl, p);
  }

  // ------------------------------------------------------------------ wait

  /** How wait goes on once it has its task's mutex: -1, asleep behind the other waiters, or with the first dead child. */
  ghost predicate Waits(s: State, s': State, t: Tid, p: Pid)
    requires p in s.tasks && p in s'.tasks && t in s'.threads
  {
    var k, k' := s.tasks[p], s'.tasks[p];
    if k.vanished != [] then
      && s'.threads[t] == Thread(p, Ready, WaitCollect, Some(k.vanished[0]))
      && Family(k', k.active, k.vanished[1..], k.waiting)
    else if |k.waiting| < |k.active| then
      && s'.threads[t] == Thread(p, Blocked, WaitBlocked, None)
      && Family(k', k.active, [], k.waiting + [t])
    else
      && s'.threads[t] == Thread(p, Ready, Idle, None)
      && Family(k', k.active, [], k.waiting)
  }

  lemma WaitOutcome(s: State, t: Tid, p: Pid)
    requires Inv(s) && Stands(s, t, p, WaitHasMux)
    ensures Next(s, Go(t)).Step?
    ensures var s' := Next(s, Go(t)).s;
            && Only(s, s', {t}, {p}) && s'.tree == s.tree && s'.tasks[p].mux == None
            && SameBody(s.tasks[p], s'.tasks[p]) && Waits(s, s', t, p)
  {
    var pl := Facts(s, t, p, WaitHasMux);
    if s.tasks[p].vanished != [] {
      Wait.TakeSafe(s, pl, t);
    }
  }

  /** wait's last stretch gives back the child it was assigned and nothing else: the task and all its threads are gone. */
  lemma CollectOutcome(s: State, t: Tid, p: Pid)
    requires Inv(s) && Stands(s, t, p, WaitCollect)
    ensures s.threads[t].collected.Some? && Next(s, Go(t)).Step?
    ensures var c, s' := s.threads[t].collected.value, Next(s, Go(t)).s;
            && c in s.tasks && c != p && s'.tasks == s.tasks - {c} && s'.reaped == s.reaped + [c]
            && s'.threads == (map u | u in s.threads && s.threads[u].task != c :: s.threads[u])
                             [t := Thread(p, Ready, Idle, None)]
            && s'.tree == s.tree && s'.init == s.init && s'.nextPid == s.nextPid && s'.nextTid == s.nextTid
  {
    var pl := Facts(s, t, p, WaitCollect);
    StepInv(s, Go(t));
    var c := s.threads[t].collected.value;
    assert PlaceOk(s, pl, c);
    OneThreadLeft(s, pl, c);
    var s' := Next(s, Go(t)).s;
    assert s'.threads == (map u | u in s.threads && s.threads[u].task != c :: s.threads[u])
                         [t := Thread(p, Ready, Idle, None)];
  }

  lemma OneThreadLeft(s: State, pl: Places, c: Pid)
    requires ThreadsOk(s, pl) && c in s.tasks && TaskOk(s, c) && Corpse(s, c) && !s.tasks[c].listed
    ensures forall u :: u in s.threads ==> (s.threads[u].task == c <==> u == s.tasks[c].last.value)
  {
    forall u | u in s.threads
      ensures s.threads[u].task == c <==> u == s.tasks[c].last.value
    {
      assert ThreadOk(s, u);
    }
  }

  // ------------------------------------------------------------------ fork and thread_fork

  /** thread_fork waits for its task's mutex only, and leaves a new thread of the task ready to run. */
  lemma SpawnOutcome(s: State, t: Tid, p: Pid)
    requires Inv(s) && Stands(s, t, p, Idle)
    ensures Next(s, Call(t, Spawn)).Step? <==> s.tasks[p].mux == None
    ensures s.tasks[p].mux == None ==>
              var s', u := Next(s, Call(t, Spawn)).s, s.nextTid;
              && u !in s.threads && s'.threads == s.threads[u := Thread(p, Ready, Idle, None)] && s'.nextTid > u
              && s'.tasks == s.tasks[p := s'.tasks[p]] && s'.tasks[p].threads == s.tasks[p].threads + [u]
              && s'.tasks[p].zombies == s.tasks[p].zombies
              && Family(s'.tasks[p], s.tasks[p].active, s.tasks[p].vanished, s.tasks[p].waiting)
              && s'.tree == s.tree && s'.nextPid == s.nextPid && s'.reaped == s.reaped
  {
    var pl := Facts(s, t, p, Idle);
    assert s.nextTid in s.threads ==> ThreadOk(s, s.nextTid);
  }

  /** fork is refused exactly to a task of several threads; otherwise there is a new task of one thread that cannot
      run yet. */
  lemma ForkOutcome(s: State, t: Tid, p: Pid)
    requires Inv(s) && Stands(s, t, p, Idle)
    ensures Next(s, Call(t, Fork)).Step? <==> |s.tasks[p].threads| == 1
    ensures |s.tasks[p].threads| == 1 ==>
              var s', c, u := Next(s, Call(t, Fork)).s, s.nextPid, s.nextTid;
              && c !in s.tasks && u !in s.threads && c !in s.reaped && s'.nextPid > c && s'.nextTid > u
              && s'.threads == s.threads[u := Thread(c, Uninitialized, Idle, None)]
                                        [t := s.threads[t].(pc := ForkWantMux(c, u))]
              && s'.tasks == s.tasks[c := s'.tasks[c]]
              && s'.tasks[c].parent == p && s'.tasks[c].listed && s'.tasks[c].threads == [u]
              && s'.tasks[c].zombies == [] && Family(s'.tasks[c], [], [], [])
              && s'.tree == s.tree && s'.reaped == s.reaped
  {
    var pl := Facts(s, t, p, Idle);
    var c, u := s.nextPid, s.nextTid;
    assert c in s.tasks ==> TaskOk(s, c);
    assert u in s.threads ==> ThreadOk(s, u);
    if |s.tasks[p].threads| == 1 {
      assert [] + [u] == [u];
      assert Next(s, Call(t, Fork)).s.threads == s.threads[u := Thread(c, Uninitialized, Idle, None)]
                                                          [t := s.threads[t].(pc := ForkWantMux(c, u))];
    }
  }

  /** Under the parent's mutex the child joins the end of the active list. */
  lemma LinkOutcome(s: State, t: Tid, p: Pid, c: Pid, u: Tid)
    requires Inv(s) && Stands(s, t, p, ForkHasMux(c, u))
    ensures Next(s, Go(t)).Step?
    ensures var s', k := Next(s, Go(t)).s, s.tasks[p];
            && Only(s, s', {t}, {p}) && s'.tree == s.tree && s'.tasks[p].mux == None && SameBody(k, s'.tasks[p])
            && Family(s'.tasks[p], k.active + [c], k.vanished, k.waiting)
            && s'.threads[t] == s.threads[t].(pc := ForkLinked(c, u))
  {
    StepInv(s, Go(t));
  }

  /** ... and then its thread can run, and fork is over. */
  lemma ForkEnds(s: State, t: Tid, p: Pid, c: Pid, u: Tid)
    requires Inv(s) && Stands(s, t, p, ForkLinked(c, u))
    ensures Next(s, Go(t)).Step? && u in s.threads && u != t
    ensures var s' := Next(s, Go(t)).s;
            && Only(s, s', {t, u}, {}) && s'.tree == s.tree
            && s'.threads[t] == Thread(p, Ready, Idle, None) && s'.threads[u] == Thread(c, Ready, Idle, None)
  {
    var pl := Facts(s, t, p, ForkLinked(c, u));
    StepInv(s, Go(t));
    assert ThreadOk(s, u) && TaskOk(s, c) && MemberOk(s, c, u);
  }

  // ------------------------------------------------------------------ vanish

  /** A thread that is not the last one is dead at once; the last one takes the task off the list of live ones and
      disowns its active children.  Both locks are free again. */
  lemma LeaveOutcome(s: State, t: Tid, p: Pid)
    requires Inv(s) && Stands(s, t, p, VanHasBoth)
    ensures Next(s, Go(t)).Step?
    ensures var s', k := Next(s, Go(t)).s, s.tasks[p];
            var k' := s'.tasks[p];
            && Only(s, s', {t}, {p}) && s'.tree == None && k'.mux == None && k'.parent == k.parent && k'.last == None
            && t !in k'.threads && (forall u :: u in k.threads && u != t ==> u in k'.threads)
            && |k'.threads| == |k.threads| - 1 && k'.zombies == k.zombies + [t]
            && (if |k.threads| > 1
                then k'.listed && Family(k', k.active, k.vanished, k.waiting) && s'.threads[t] == Thread(p, Dead, Gone, None)
                else !k'.listed && Family(k', [], k.vanished, []) && s'.threads[t] == Thread(p, Ready, VanFree, None))
  {
    var pl := Facts(s, t, p, VanHasBoth);
    StepInv(s, Go(t));
    NoDupWithout(s.tasks[p].threads, t);
    var s' := Next(s, Go(t)).s;
    var pl' :| InvAt(s', pl');
    assert TaskOk(s', p);
  }

  /** The last thread frees every other thread of the task, and goes by init exactly when it has dead children. */
  lemma SiblingsOutcome(s: State, t: Tid, p: Pid)
    requires Inv(s) && Stands(s, t, p, VanFree)
    ensures Next(s, Go(t)).Step?
    ensures var s', k := Next(s, Go(t)).s, s.tasks[p];
            && s'.threads == (map u | u in s.threads && s.threads[u].task != p :: s.threads[u])
                             [t := Thread(p, Ready, if k.vanished == [] then VanWantTree2 else VanWantInit, None)]
            && s'.tasks == s.tasks[p := s'.tasks[p]] && s'.tasks[p].zombies == [t] && s'.tasks[p].last == Some(t)
            && Family(s'.tasks[p], [], k.vanished, []) && s'.tree == s.tree && s'.reaped == s.reaped
  {
    var pl := Facts(s, t, p, VanFree);
    StepInv(s, Go(t));
    var s' := Next(s, Go(t)).s;
    forall u | u in s.threads
      ensures s.threads[u].task == p <==> u in s.tasks[p].zombies
    {
      assert ThreadOk(s, u) && MemberOk(s, p, u);
    }
    assert s'.threads == (map u | u in s.threads && s.threads[u].task != p :: s.threads[u])
                         [t := Thread(p, Ready, if s.tasks[p].vanished == [] then VanWantTree2 else VanWantInit, None)];
  }

  /** The dead children of a dying task go behind those of init, in order; if a thread of init was waiting, the first of
      all of them is its child now and it can run. */
  ghost predicate HandsOver(s: State, s': State, t: Tid, p: Pid)
    requires p in s.tasks && s.init in s.tasks && p in s'.tasks && s.init in s'.tasks
  {
    var i, i' := s.tasks[s.init], s'.tasks[s.init];
    var all := i.vanished + s.tasks[p].vanished;
    if i.waiting == [] then
      && Only(s, s', {t}, {p, s.init}) && Family(i', i.active, all, [])
    else
      && all != []
      && Only(s, s', {t, i.waiting[0]}, {p, s.init}) && Family(i', i.active, all[1..], i.waiting[1..])
      && i.waiting[0] in s'.threads
      && s'.threads[i.waiting[0]] == Thread(s.init, Ready, WaitCollect, Some(all[0]))
  }

  lemma HandOverOutcome(s: State, t: Tid, p: Pid)
    requires Inv(s) && Stands(s, t, p, VanHasInit)
    ensures Next(s, Go(t)).Step? && p != s.init && s.init in s.tasks && s.tasks[p].vanished != []
    ensures var s' := Next(s, Go(t)).s;
            && s.init in s'.tasks && p in s'.tasks && HandsOver(s, s', t, p)
            && s'.tasks[p].vanished == [] && SameBody(s.tasks[p], s'.tasks[p])
            && SameBody(s.tasks[s.init], s'.tasks[s.init]) && s'.tasks[s.init].mux == None && s'.tree == s.tree
            && t in s'.threads && s'.threads[t] == Thread(p, Ready, VanWantTree2, None)
  {
    var pl := Facts(s, t, p, VanHasInit);
    StepInv(s, Go(t));
    assert TaskOk(s, s.init);
    FirstWaiterIs(s, pl, s.init);
  }

  lemma FirstWaiterIs(s: State, pl: Places, q: Pid)
    requires InvAt(s, pl) && q in s.tasks
    ensures s.tasks[q].waiting != [] ==>
              && s.tasks[q].waiting[0] in s.threads
              && s.threads[s.tasks[q].waiting[0]] == Thread(q, Blocked, WaitBlocked, None)
  {
    if s.tasks[q].waiting != [] {
      var w := s.tasks[q].waiting[0];
      assert TaskOk(s, q) && MemberOk(s, q, w);
      assert ThreadOk(s, w);
    }
  }

  /** The task reports to its parent while that is alive, and to init otherwise. */
  lemma TargetOutcome(s: State, t: Tid, p: Pid)
    requires Inv(s) && Stands(s, t, p, VanHasTree2)
    ensures var q := s.tasks[p].parent;
            var pc := if q in s.tasks && s.tasks[q].listed then VanWantTarget(q, false) else VanWantTarget(s.init, true);
            Next(s, Go(t)) == Step(s.(threads := s.threads[t := Thread(p, Ready, pc, None)]))
  {
    var pl := Facts(s, t, p, VanHasTree2);
  }

  /** With the mutex of the target the tree is given back and a parent forgets its active child. */
  lemma EnterOutcome(s: State, t: Tid, p: Pid, q: Pid, orphan: bool)
    requires Inv(s) && Stands(s, t, p, VanWantTarget(q, orphan))
    ensures q in s.tasks && p != q && (Next(s, Go(t)).Step? <==> s.tasks[q].mux == None)
    ensures s.tasks[q].mux == None ==>
              var s', k := Next(s, Go(t)).s, s.tasks[q];
              && Only(s, s', {t}, {q}) && s'.tree == None && s'.tasks[q].mux == Some(t) && SameBody(k, s'.tasks[q])
              && s'.tasks[q].vanished == k.vanished && s'.tasks[q].waiting == k.waiting
              && (p in k.active <==> !orphan) && p !in s'.tasks[q].active
              && (forall c :: c != p ==> (c in s'.tasks[q].active <==> c in k.active))
              && s'.threads[t] == s.threads[t].(pc := VanHasTarget(q, orphan))
  {
    var pl := Facts(s, t, p, VanWantTarget(q, orphan));
    StepInv(s, Go(t));
    assert TaskOk(s, q) && ListsOk(s, pl, q, p) && OnParentsList(s, pl, p);
    NoDupWithout(s.tasks[q].active, p);
  }

  /** The dead task is the child of the first waiter, which can run, or the last on the list of dead children. */
  ghost predicate Reports(s: State, s': State, t: Tid, p: Pid, q: Pid)
    requires q in s.tasks && q in s'.tasks
  {
    var k, k' := s.tasks[q], s'.tasks[q];
    if k.waiting == [] then
      && Only(s, s', {t}, {q}) && Family(k', k.active, k.vanished + [p], [])
    else
      && Only(s, s', {t, k.waiting[0]}, {q}) && Family(k', k.active, k.vanished, k.waiting[1..])
      && k.waiting[0] in s'.threads
      && s'.threads[k.waiting[0]] == Thread(q, Ready, WaitCollect, Some(p))
  }

  lemma ReportOutcome(s: State, t: Tid, p: Pid, q: Pid, orphan: bool)
    requires Inv(s) && Stands(s, t, p, VanHasTarget(q, orphan))
    ensures Next(s, Go(t)).Step? && q in s.tasks
    ensures var s' := Next(s, Go(t)).s;
            && q in s'.tasks && Reports(s, s', t, p, q)
            && s'.tasks[q].mux == None && s'.tree == s.tree && SameBody(s.tasks[q], s'.tasks[q])
            && t in s'.threads && s'.threads[t] == Thread(p, Dead, Gone, None)
  {
    var pl := Facts(s, t, p, VanHasTarget(q, orphan));
    StepInv(s, Go(t));
    FirstWaiterIs(s, pl, q);
    assert TaskOk(s, q);
  }

  // ------------------------------------------------------------------ entering, and taking a lock

  /** A task of one thread or more may wait and, unless it is init, vanish. */
  lemma EnterCallOutcome(s: State, t: Tid, p: Pid)
    requires Inv(s) && Stands(s, t, p, Idle)
    ensures Next(s, Call(t, Syscall.Wait)) == Step(s.(threads := s.threads[t := Thread(p, Ready, WaitWantMux, None)]))
    ensures Next(s, Call(t, Vanish)) == if p == s.init then Disabled
                                        else Step(s.(threads := s.threads[t := Thread(p, Ready, VanWantTree, None)]))
  {
    var pl := Facts(s, t, p, Idle);
  }

  /** The program counter behind a lock, and whose mutex it is; no mutex stands for vanish_tree_mux. */
  function Behind(init: Pid, p: Pid, pc: Pc): Option<(Option<Pid>, Pc)> {
    match pc
    case ForkWantMux(c, u) => Some((Some(p), ForkHasMux(c, u)))
    case WaitWantMux => Some((Some(p), WaitHasMux))
    case VanWantTree => Some((None, VanWantMux))
    case VanWantMux => Some((Some(p), VanHasBoth))
    case VanWantInit => Some((Some(init), VanHasInit))
    case VanWantTree2 => Some((None, VanHasTree2))
    case _ => None
  }

  ghost function OwnerOf(s: State, lock: Option<Pid>): Option<Tid> {
    if lock == None then s.tree else MuxAt(s, lock.value)
  }

  /** A thread at a lock gets it exactly when it is free. */
  lemma LockOutcome(s: State, t: Tid, p: Pid, pc: Pc)
    requires Inv(s) && Stands(s, t, p, pc) && Behind(s.init, p, pc).Some?
    ensures Next(s, Go(t)).Step? <==> OwnerOf(s, Behind(s.init, p, pc).value.0) == None
    ensures Next(s, Go(t)).Step? ==>
              var b, s' := Behind(s.init, p, pc).value, Next(s, Go(t)).s;
              && OwnerOf(s', b.0) == Some(t) && s'.threads == s.threads[t := Thread(p, Ready, b.1, None)]
              && (forall l :: l != b.0 ==> OwnerOf(s', l) == OwnerOf(s, l))
  {
    var pl := Facts(s, t, p, pc);
    StepInv(s, Go(t));
  }

  /** ... and nothing but the owner changes. */
  lemma LockTouchesNothing(s: State, t: Tid, p: Pid, pc: Pc)
    requires Inv(s) && Stands(s, t, p, pc) && Behind(s.init, p, pc).Some? && Next(s, Go(t)).Step?
    ensures var s' := Next(s, Go(t)).s;
            && s' == s.(threads := s'.threads, tasks := s'.tasks, tree := s'.tree) && s'.tasks.Keys == s.tasks.Keys
            && (forall q :: q in s.tasks ==> s'.tasks[q] == s.tasks[q].(mux := s'.tasks[q].mux))
  {
  }
}
