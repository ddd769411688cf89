/** Whole calls of fork, wait and vanish by one thread that finds the locks free. */
module TaskLifeCalls {
  import opened Seqs
  import opened TaskLife
  import opened TaskLifeInvariant
  import opened TaskLifeTheorems
  import opened TaskLifeOutcomes
  import opened TaskLifeProgress

  lemma {:induction false} PerformConcat(s: State, a: seq<Action>, b: seq<Action>)
    requires Perform(s, a).Step?
    ensures Perform(s, a + b) == Perform(Perform(s, a).s, b)
    decreases |a|
  {
    if a == [] {
      assert a + b == b;
    } else {
      assert (a + b)[1..] == a[1..] + b;
      PerformConcat(Next(s, a[0]).s, a[1..], b);
    }
  }

  /** From a state that meets the invariant, `acts` lead to s'. */
  ghost predicate Leads(s: State, acts: seq<Action>, s': State) {
    Inv(s) && Perform(s, acts) == Step(s') && Inv(s')
  }

  /** One more action at the end. */
  lemma AndThen(s: State, acts: seq<Action>, s1: State, a: Action)
    requires Leads(s, acts, s1) && Next(s1, a).Step?
    ensures Leads(s, acts + [a], Next(s1, a).s)
  {
    PerformConcat(s, acts, [a]);
    assert [a][1..] == [] && Perform(Next(s1, a).s, []) == Step(Next(s1, a).s);
    StepInv(s1, a);
  }

  lemma First(s: State, a: Action)
    requires Inv(s) && Next(s, a).Step?
    ensures Leads(s, [a], Next(s, a).s)
  {
    assert Leads(s, [], s);
    AndThen(s, [], s, a);
    assert [] + [a] == [a];
  }

  // ------------------------------------------------------------------ wait

  /** t is in wait with the mutex of its task p, and nothing else changed. */
  function Holding(s: State, t: Tid, p: Pid): State
    requires p in s.tasks
  {
    s.(threads := s.threads[t := Thread(p, Ready, WaitHasMux, None)], tasks := s.tasks[p := s.tasks[p].(mux := Some(t))])
  }

  lemma LocksOwn(s: State, t: Tid, p: Pid, s': State)
    requires Inv(s) && Stands(s, t, p, WaitWantMux) && Next(s, Go(t)) == Step(s')
    ensures s' == Holding(s, t, p)
  {
    LockOutcome(s, t, p, WaitWantMux);
    LockTouchesNothing(s, t, p, WaitWantMux);
    forall q | q in s.tasks
      ensures s'.tasks[q] == s.tasks[q].(mux := if q == p then Some(t) else s.tasks[q].mux)
    {
      assert OwnerOf(s', Some(q)) == if q == p then Some(t) else OwnerOf(s, Some(q));
    }
    assert s'.tasks == Holding(s, t, p).tasks;
    assert OwnerOf(s', None) == OwnerOf(s, None);
  }

  /** The first two actions of wait. */
  lemma WaitEnters(s: State, t: Tid, p: Pid)
    requires Inv(s) && Stands(s, t, p, Idle) && s.tasks[p].mux == None
    ensures Leads(s, [Call(t, Syscall.Wait), Go(t)], Holding(s, t, p))
  {
    EnterCallOutcome(s, t, p);
    First(s, Call(t, Syscall.Wait));
    var s1 := s.(threads := s.threads[t := Thread(p, Ready, WaitWantMux, None)]);
    LockOutcome(s1, t, p, WaitWantMux);
    LocksOwn(s1, t, p, Next(s1, Go(t)).s);
    AndThen(s, [Call(t, Syscall.Wait)], s1, Go(t));
    assert [Call(t, Syscall.Wait)] + [Go(t)] == [Call(t, Syscall.Wait), Go(t)];
    assert Holding(s1, t, p) == Holding(s, t, p);
  }

  lemma RefusedOnce(s: State, t: Tid, p: Pid)
    requires Inv(s) && Stands(s, t, p, Idle) && s.tasks[p].mux == None && Inv(Holding(s, t, p))
    requires s.tasks[p].vanished == [] && |s.tasks[p].active| <= |s.tasks[p].waiting|
    ensures Next(Holding(s, t, p), Go(t)) == Step(s)
  {
    var pl := Facts(s, t, p, Idle);
    var h := Holding(s, t, p);
    WaitOutcome(h, t, p);
    assert Next(h, Go(t)).s.tasks == s.tasks && Next(h, Go(t)).s.threads == s.threads;
  }

  /** wait returns -1, having changed nothing, when no dead child is there and every running one is spoken for: in
      particular to a task without children. */
  lemma RefusedWaitReturns(s: State, t: Tid, p: Pid)
    requires Inv(s) && Stands(s, t, p, Idle) && s.tasks[p].mux == None
    requires s.tasks[p].vanished == [] && |s.tasks[p].active| <= |s.tasks[p].waiting|
    ensures Perform(s, [Call(t, Syscall.Wait), Go(t), Go(t)]) == Step(s)
  {
    WaitEnters(s, t, p);
    RefusedOnce(s, t, p);
    AndThen(s, [Call(t, Syscall.Wait), Go(t)], Holding(s, t, p), Go(t));
    assert [Call(t, Syscall.Wait), Go(t)] + [Go(t)] == [Call(t, Syscall.Wait), Go(t), Go(t)];
  }

  /** Nothing of task c is left in s', and it is the last one reaped. */
  ghost predicate Buried(s: State, s': State, c: Pid) {
    && s'.reaped == s.reaped + [c] && s'.tasks.Keys == s.tasks.Keys - {c}
    && s'.threads.Keys == (set u | u in s.threads && s.threads[u].task != c)
  }

  lemma CollectsAfter(s: State, t: Tid, p: Pid, s3: State)
    requires Inv(s) && Stands(s, t, p, Idle) && s.tasks[p].vanished != []
    requires Inv(Holding(s, t, p)) && Next(Holding(s, t, p), Go(t)) == Step(s3) && Inv(s3)
    ensures var c := s.tasks[p].vanished[0];
            && Stands(s3, t, p, WaitCollect) && Next(s3, Go(t)).Step? && p != c
            && Buried(s, Next(s3, Go(t)).s, c)
            && Family(Next(s3, Go(t)).s.tasks[p], s.tasks[p].active, s.tasks[p].vanished[1..], s.tasks[p].waiting)
            && Next(s3, Go(t)).s.threads[t] == s.threads[t]
  {
    var pl := Facts(s, t, p, Idle);
    WaitOutcome(Holding(s, t, p), t, p);
    CollectOutcome(s3, t, p);
  }

  lemma Collects(s: State, t: Tid, p: Pid, s3: State)
    requires Stands(s, t, p, Idle) && s.tasks[p].vanished != [] && Leads(s, [Call(t, Syscall.Wait), Go(t), Go(t)], s3)
    requires Inv(Holding(s, t, p)) && Next(Holding(s, t, p), Go(t)) == Step(s3)
    ensures var c, o := s.tasks[p].vanished[0], Perform(s, [Call(t, Syscall.Wait), Go(t), Go(t), Go(t)]);
            && o.Step? && Buried(s, o.s, c) && p != c
            && Family(o.s.tasks[p], s.tasks[p].active, s.tasks[p].vanished[1..], s.tasks[p].waiting)
            && o.s.threads[t] == s.threads[t]
  {
    CollectsAfter(s, t, p, s3);
    AndThen(s, [Call(t, Syscall.Wait), Go(t), Go(t)], s3, Go(t));
    assert [Call(t, Syscall.Wait), Go(t), Go(t)] + [Go(t)] == [Call(t, Syscall.Wait), Go(t), Go(t), Go(t)];
  }

  /** wait returns the child that died first, of which nothing is left. */
  lemma WaitReturnsDeadChild(s: State, t: Tid, p: Pid)
    requires Inv(s) && Stands(s, t, p, Idle) && s.tasks[p].mux == None && s.tasks[p].vanished != []
    ensures var c, o := s.tasks[p].vanished[0], Perform(s, [Call(t, Syscall.Wait), Go(t), Go(t), Go(t)]);
            && o.Step? && Buried(s, o.s, c) && p != c
            && Family(o.s.tasks[p], s.tasks[p].active, s.tasks[p].vanished[1..], s.tasks[p].waiting)
            && o.s.threads[t] == s.threads[t]
  {
    WaitEnters(s, t, p);
    var h := Holding(s, t, p);
    WaitOutcome(h, t, p);
    AndThen(s, [Call(t, Syscall.Wait), Go(t)], h, Go(t));
    assert [Call(t, Syscall.Wait), Go(t)] + [Go(t)] == [Call(t, Syscall.Wait), Go(t), Go(t)];
    Collects(s, t, p, Next(h, Go(t)).s);
  }

  // ------------------------------------------------------------------ a child dies while its parent waits

  /** A dying task with its target's mutex gives itself to the first waiter, and that waiter's wait returns it. */
  lemma WaiterReturnsChild(s: State, t: Tid, p: Pid, q: Pid, orphan: bool)
    requires Inv(s) && Stands(s, t, p, VanHasTarget(q, orphan)) && q in s.tasks && s.tasks[q].waiting != []
    ensures var w, o := s.tasks[q].waiting[0], Perform(s, [Go(t), Go(s.tasks[q].waiting[0])]);
            && o.Step? && Buried(s, o.s, p) && w in o.s.threads && o.s.threads[w] == Thread(q, Ready, Idle, None)
  {
    ReportOutcome(s, t, p, q, orphan);
    var w, s1 := s.tasks[q].waiting[0], Next(s, Go(t)).s;
    First(s, Go(t));
    CollectOutcome(s1, w, q);
    var s2 := Next(s1, Go(w)).s;
    SameTasks(s, t, p, q, orphan);
    AndThen(s, [Go(t)], s1, Go(w));
    assert [Go(t)] + [Go(w)] == [Go(t), Go(w)];
  }

  lemma SameTasks(s: State, t: Tid, p: Pid, q: Pid, orphan: bool)
    requires Inv(s) && Stands(s, t, p, VanHasTarget(q, orphan)) && q in s.tasks && s.tasks[q].waiting != []
    requires Next(s, Go(t)).Step? && Next(s, Go(t)).s.threads.Keys == s.threads.Keys
    ensures forall u :: u in s.threads ==> Next(s, Go(t)).s.threads[u].task == s.threads[u].task
  {
    ReportOutcome(s, t, p, q, orphan);
    var pl := Facts(s, t, p, VanHasTarget(q, orphan));
    FirstWaiterIs(s, pl, q);
  }
}
