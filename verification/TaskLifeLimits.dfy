/** A run of fork, wait and vanish that ends with a waiter of init beside a child nobody collects. */
module TaskLifeLimits {
  import opened Seqs
  import opened TaskLife
  import opened TaskLifeInvariant
  import opened TaskLifeTheorems

  ghost predicate Reaches(s: State, s': State) {
    exists acts :: Run(s, acts) == Step(s')
  }

  lemma {:induction false} RunConcat(s: State, a: seq<Action>, b: seq<Action>)
    requires Run(s, a).Step?
    ensures Run(s, a + b) == Run(Run(s, a).s, b)
    decreases |a|
  {
    if a == [] {
      assert a + b == b;
    } else {
      assert (a + b)[1..] == a[1..] + b && (a + b)[0] == a[0];
      match Next(s, a[0])
      case Step(s') => RunConcat(s', a[1..], b);
      case Disabled => RunConcat(s, a[1..], b);
      case Panic =>
    }
  }

  lemma ReachesBoth(s: State, s1: State, s2: State)
    requires Reaches(s, s1) && Reaches(s1, s2)
    ensures Reaches(s, s2)
  {
    var a :| Run(s, a) == Step(s1);
    var b :| Run(s1, b) == Step(s2);
    RunConcat(s, a, b);
    assert Run(s, a + b) == Step(s2);
  }

  lemma ReachesSelf(s: State)
    ensures Reaches(s, s)
  {
    assert Run(s, []) == Step(s);
  }

  lemma Then(s: State, s1: State, a: Action, s2: State)
    requires Reaches(s, s1) && Next(s1, a) == Step(s2)
    ensures Reaches(s, s2)
  {
    assert Run(s2, [a][1..]) == Step(s2);
    assert Run(s1, [a]) == Step(s2);
    ReachesBoth(s, s1, s2);
  }

  // ------------------------------------------------------------------ one system call at a time

  ghost predicate IdleIn(s: State, t: Tid, p: Pid) {
    t in s.threads && s.threads[t] == Thread(p, Ready, Idle, None) && p in s.tasks && s.tasks[p].mux == None
  }

  function At(s: State, t: Tid, pc: Pc): map<Tid, Thread>
    requires t in s.threads
  {
    s.threads[t := s.threads[t].(pc := pc)]
  }

  function Kid(parent: Pid, ct: Tid): Task {
    NewTask(parent).(threads := [ct], numThreads := 1, totalThreads := 1)
  }

  function Forked(s: State, t: Tid, p: Pid): State
    requires p in s.tasks
  {
    var k := s.tasks[p];
    s.(tasks := s.tasks[s.nextPid := Kid(p, s.nextTid)][p := k.(active := k.active + [s.nextPid], numActive := k.numActive + 1)],
       threads := s.threads[s.nextTid := Thread(s.nextPid, Ready, Idle, None)],
       nextPid := s.nextPid + 1, nextTid := s.nextTid + 1)
  }

  ghost predicate CanFork(s: State, t: Tid, p: Pid) {
    && IdleIn(s, t, p) && s.tasks[p].numThreads == 1 && s.nextPid !in s.tasks && s.nextTid !in s.threads
    && !OnSomeList(s, s.nextPid)
  }

  function Building(s: State, t: Tid, p: Pid, pc: Pc, st: Status): State
    requires t in s.threads
  {
    s.(tasks := s.tasks[s.nextPid := Kid(p, s.nextTid)],
       threads := s.threads[s.nextTid := Thread(s.nextPid, st, Idle, None)][t := s.threads[t].(pc := pc)],
       nextPid := s.nextPid + 1, nextTid := s.nextTid + 1)
  }

  lemma ForkStarts(s: State, t: Tid, p: Pid)
    requires CanFork(s, t, p)
    ensures Next(s, Call(t, Fork)) == Step(Building(s, t, p, ForkWantMux(s.nextPid, s.nextTid), Uninitialized))
  {
    var c := s.nextPid;
    var s1 := CreateTcb(WithTask(s, c, NewTask(p)).(nextPid := c + 1), c);
    assert [] + [s.nextTid] == [s.nextTid];
    assert s1.tasks == s.tasks[c := Kid(p, s.nextTid)];
  }

  lemma ForkReaches(s: State, t: Tid, p: Pid)
    requires CanFork(s, t, p)
    ensures Reaches(s, Forked(s, t, p))
  {
    var c, ct, k := s.nextPid, s.nextTid, s.tasks[p];
    ForkStarts(s, t, p);
    var s1 := Building(s, t, p, ForkWantMux(c, ct), Uninitialized);
    ReachesSelf(s);
    Then(s, s, Call(t, Fork), s1);
    var s2 := WithPc(WithTask(s1, p, k.(mux := Some(t))), t, ForkHasMux(c, ct));
    Then(s, s1, Go(t), s2);
    var s3 := WithPc(WithTask(s2, p, k.(active := k.active + [c], numActive := k.numActive + 1)), t, ForkLinked(c, ct));
    assert !OnSomeList(s2, c);
    Then(s, s2, Go(t), s3);
    var s4 := Forked(s, t, p);
    assert s4.tasks == s3.tasks;
    assert s4.threads == WithPc(MakeRunnable(s3, ct), t, Idle).threads;
    Then(s, s3, Go(t), s4);
  }

  function Waiting(s: State, t: Tid, p: Pid): State
    requires t in s.threads && p in s.tasks
  {
    var k := s.tasks[p];
    s.(tasks := s.tasks[p := k.(waiting := k.waiting + [t], numWaiting := k.numWaiting + 1)],
       threads := s.threads[t := s.threads[t].(status := Blocked, pc := WaitBlocked)])
  }

  lemma WaitReaches(s: State, t: Tid, p: Pid)
    requires IdleIn(s, t, p) && s.tasks[p].vanished == []
    requires s.tasks[p].numWaiting < s.tasks[p].numActive + s.tasks[p].numVanished
    ensures Reaches(s, Waiting(s, t, p))
  {
    ReachesSelf(s);
    var s1 := WithPc(s, t, WaitWantMux);
    Then(s, s, Call(t, Wait), s1);
    var s2 := WithPc(WithTask(s1, p, s.tasks[p].(mux := Some(t))), t, WaitHasMux);
    Then(s, s1, Go(t), s2);
    var s3 := Waiting(s, t, p);
    assert s3.tasks == WaitRegion(s2, t).s.tasks && s3.threads == WaitRegion(s2, t).s.threads;
    Then(s, s2, Go(t), s3);
  }

  /** A task of one thread, before and after that thread is its only, last one. */
  ghost predicate Single(s: State, t: Tid, p: Pid) {
    && IdleIn(s, t, p) && p != s.init && s.tree == None
    && s.tasks[p].threads == [t] && s.tasks[p].numThreads == 1 && s.tasks[p].zombies == [] && s.tasks[p].numZombies == 0
    && s.tasks[p].totalThreads == 1 && s.tasks[p].listed && s.tasks[p].last == None
  }

  function Husk(k: Task, t: Tid): Task {
    k.(threads := [], numThreads := 0, zombies := [t], numZombies := 1, listed := false, active := [], last := Some(t))
  }

  function Left(s: State, t: Tid, p: Pid): State
    requires t in s.threads && p in s.tasks
  {
    s.(tasks := s.tasks[p := Husk(s.tasks[p], t)],
       threads := At(s, t, if s.tasks[p].vanished == [] then VanWantTree2 else VanWantInit))
  }

  lemma LeaveReaches(s: State, t: Tid, p: Pid)
    requires Single(s, t, p)
    ensures Reaches(s, Left(s, t, p))
  {
    var k := s.tasks[p];
    ReachesSelf(s);
    var s1 := WithPc(s, t, VanWantTree);
    Then(s, s, Call(t, Vanish), s1);
    var s2 := WithPc(s1.(tree := Some(t)), t, VanWantMux);
    Then(s, s1, Go(t), s2);
    var s3 := WithPc(WithTask(s2, p, k.(mux := Some(t))), t, VanHasBoth);
    Then(s, s2, Go(t), s3);
    var s4 := s.(tasks := s.tasks[p := Husk(k, t).(last := None)], threads := At(s, t, VanFree));
    LeaveIs(s3, t, p, s4);
    Then(s, s3, Go(t), s4);
    FreeIs(s4, t, p, Left(s, t, p));
    Then(s, s4, Go(t), Left(s, t, p));
  }

  lemma LeaveIs(s: State, t: Tid, p: Pid, s': State)
    requires t in s.threads && s.threads[t] == Thread(p, Ready, VanHasBoth, None) && p in s.tasks
    requires var k := s.tasks[p];
             && k.threads == [t] && k.numThreads == 1 && k.zombies == [] && k.numZombies == 0 && k.totalThreads == 1
             && k.listed && k.last == None
             && s' == s.(tasks := s.tasks[p := Husk(k, t).(mux := None, last := None)], threads := At(s, t, VanFree), tree := None)
    ensures Next(s, Go(t)) == Step(s')
  {
    assert Without([t], t) == [];
    assert [] + [t] == [t];
  }

  lemma FreeIs(s: State, t: Tid, p: Pid, s': State)
    requires t in s.threads && s.threads[t] == Thread(p, Ready, VanFree, None) && p in s.tasks
    requires var k := s.tasks[p];
             && k.threads == [] && k.numThreads == 0 && k.zombies == [t] && k.numZombies == 1
             && s' == s.(tasks := s.tasks[p := k.(last := Some(t))],
                         threads := At(s, t, if k.vanished == [] then VanWantTree2 else VanWantInit))
    ensures Next(s, Go(t)) == Step(s')
  {
    assert (map z | z in s.threads && (z == t || z !in s.tasks[p].zombies) :: s.threads[z]) == s.threads;
  }

  function Spawned(s: State, p: Pid): State
    requires p in s.tasks
  {
    var k := s.tasks[p];
    s.(tasks := s.tasks[p := k.(threads := k.threads + [s.nextTid], numThreads := k.numThreads + 1,
                                totalThreads := k.totalThreads + 1)],
       threads := s.threads[s.nextTid := Thread(p, Ready, Idle, None)], nextTid := s.nextTid + 1)
  }

  lemma SpawnReaches(s: State, t: Tid, p: Pid)
    requires IdleIn(s, t, p) && s.nextTid !in s.threads
    ensures Reaches(s, Spawned(s, p))
  {
    ReachesSelf(s);
    assert MakeRunnable(CreateTcb(s, p), s.nextTid).threads == Spawned(s, p).threads;
    Then(s, s, Call(t, Spawn), Spawned(s, p));
  }

  /** The last thread's task is on the vanished list of its parent q. */
  function Reported(s: State, t: Tid, p: Pid, q: Pid): State
    requires t in s.threads && q in s.tasks
  {
    var k := s.tasks[q];
    s.(tasks := s.tasks[q := k.(active := Without(k.active, p), numActive := k.numActive - 1,
                                vanished := k.vanished + [p], numVanished := k.numVanished + 1)],
       threads := s.threads[t := s.threads[t].(status := Dead, pc := Gone)])
  }

  ghost predicate CanReport(s: State, t: Tid, p: Pid, q: Pid) {
    && t in s.threads && s.threads[t] == Thread(p, Ready, VanWantTree2, None) && p in s.tasks && q in s.tasks && p != q
    && s.tree == None && s.tasks[p].parent == q && s.tasks[q].listed && s.tasks[q].mux == None
    && p in s.tasks[q].active && s.tasks[q].waiting == []
    && p !in Without(s.tasks[q].active, p) && p !in s.tasks[q].vanished
    && forall x :: x in s.tasks && x != q ==> p !in s.tasks[x].active && p !in s.tasks[x].vanished
  }

  /** The state in which t holds the mutex of q and has left its active list. */
  function Entering(s: State, t: Tid, p: Pid, q: Pid): State
    requires t in s.threads && q in s.tasks
  {
    var k := s.tasks[q];
    s.(tasks := s.tasks[q := k.(active := Without(k.active, p), numActive := k.numActive - 1, mux := Some(t))],
       threads := At(s, t, VanHasTarget(q, false)))
  }

  lemma EnterReaches(s: State, t: Tid, p: Pid, q: Pid)
    requires CanReport(s, t, p, q)
    ensures Reaches(s, Entering(s, t, p, q))
  {
    ReachesSelf(s);
    var s1 := WithPc(s.(tree := Some(t)), t, VanHasTree2);
    Then(s, s, Go(t), s1);
    var s2 := WithPc(s1, t, VanWantTarget(q, false));
    Then(s, s1, Go(t), s2);
    Then(s, s2, Go(t), Entering(s, t, p, q));
  }

  lemma ReportIs(s: State, t: Tid, p: Pid, q: Pid)
    requires CanReport(s, t, p, q)
    ensures Next(Entering(s, t, p, q), Go(t)) == Step(Reported(s, t, p, q))
  {
    var s3, s4 := Entering(s, t, p, q), Reported(s, t, p, q);
    assert !OnSomeList(s3, p);
    assert s4.tasks == Report(s3, t, q).s.tasks && s4.threads == Report(s3, t, q).s.threads;
  }

  lemma ReportReaches(s: State, t: Tid, p: Pid, q: Pid)
    requires CanReport(s, t, p, q)
    ensures Reaches(s, Reported(s, t, p, q))
  {
    EnterReaches(s, t, p, q);
    ReportIs(s, t, p, q);
    Then(s, Entering(s, t, p, q), Go(t), Reported(s, t, p, q));
  }

  // ------------------------------------------------------------------ the run

  function Init(threads: seq<Tid>, active: seq<Pid>, waiting: seq<Tid>): Task {
    NewTask(0).(threads := threads, numThreads := |threads|, totalThreads := |threads|,
                active := active, numActive := |active|, waiting := waiting, numWaiting := |waiting|)
  }

  /** Task 2, whose only thread is 2. */
  function Middle(active: seq<Pid>, vanished: seq<Pid>): Task {
    Kid(1, 2).(active := active, numActive := |active|, vanished := vanished, numVanished := |vanished|)
  }

  function IdleThread(t: Tid): Thread {
    Thread(if t == 6 then 1 else t, Ready, Idle, None)
  }

  function Asleep(): Thread {
    Thread(1, Blocked, WaitBlocked, None)
  }

  function DeadThread(p: Pid): Thread {
    Thread(p, Dead, Gone, None)
  }

  function S1(): State {
    State(1, map[1 := Init([1], [2], []), 2 := Middle([], [])], map[1 := IdleThread(1), 2 := IdleThread(2)], None, 3, 3, [])
  }

  function S2(): State {
    State(1, map[1 := Init([1], [2], []), 2 := Middle([3], []), 3 := Kid(2, 3)],
          map[1 := IdleThread(1), 2 := IdleThread(2), 3 := IdleThread(3)], None, 4, 4, [])
  }

  function S3(): State {
    State(1, map[1 := Init([1], [2], []), 2 := Middle([3, 4], []), 3 := Kid(2, 3), 4 := Kid(2, 4)],
          map[1 := IdleThread(1), 2 := IdleThread(2), 3 := IdleThread(3), 4 := IdleThread(4)], None, 5, 5, [])
  }

  function S4(): State {
    State(1, map[1 := Init([1], [2, 5], []), 2 := Middle([3, 4], []), 3 := Kid(2, 3), 4 := Kid(2, 4), 5 := Kid(1, 5)],
          map[1 := IdleThread(1), 2 := IdleThread(2), 3 := IdleThread(3), 4 := IdleThread(4), 5 := IdleThread(5)], None, 6, 6, [])
  }

  /** From here on: init has threads 1 and 6. */
  function From5(i: Task, m: Task, k3: Task, k4: Task, t1: Thread, t2: Thread, t3: Thread, t4: Thread, t6: Thread): State {
    State(1, map[1 := i, 2 := m, 3 := k3, 4 := k4, 5 := Kid(1, 5)],
          map[1 := t1, 2 := t2, 3 := t3, 4 := t4, 5 := IdleThread(5), 6 := t6], None, 6, 7, [])
  }

  function S5(): State {
    From5(Init([1, 6], [2, 5], []), Middle([3, 4], []), Kid(2, 3), Kid(2, 4), IdleThread(1), IdleThread(2), IdleThread(3), IdleThread(4), IdleThread(6))
  }

  function S6(): State {
    From5(Init([1, 6], [2, 5], [1]), Middle([3, 4], []), Kid(2, 3), Kid(2, 4), Asleep(), IdleThread(2), IdleThread(3), IdleThread(4), IdleThread(6))
  }

  function S7(): State {
    From5(Init([1, 6], [2, 5], [1, 6]), Middle([3, 4], []), Kid(2, 3), Kid(2, 4),
          Asleep(), IdleThread(2), IdleThread(3), IdleThread(4), Asleep())
  }

  function S8(): State {
    From5(Init([1, 6], [2, 5], [1, 6]), Middle([4], [3]), Husk(Kid(2, 3), 3), Kid(2, 4),
          Asleep(), IdleThread(2), DeadThread(3), IdleThread(4), Asleep())
  }

  function S9(): State {
    From5(Init([1, 6], [2, 5], [1, 6]), Middle([], [3, 4]), Husk(Kid(2, 3), 3), Husk(Kid(2, 4), 4),
          Asleep(), IdleThread(2), DeadThread(3), DeadThread(4), Asleep())
  }

  /** The last thread of task 2 holds init's mutex and has two dead children to give away. */
  function S10(): State {
    From5(Init([1, 6], [2, 5], [1, 6]).(mux := Some(2)), Husk(Middle([], [3, 4]), 2), Husk(Kid(2, 3), 3), Husk(Kid(2, 4), 4),
          Asleep(), Thread(2, Ready, VanHasInit, None), DeadThread(3), DeadThread(4), Asleep())
  }

  lemma To1()
    ensures Reaches(Initial(1, 1), S1())
  {
    var s := Initial(1, 1);
    ForkReaches(s, 1, 1);
    assert [] + [2] == [2];
    assert Forked(s, 1, 1).tasks == S1().tasks && Forked(s, 1, 1).threads == S1().threads;
  }

  lemma To2()
    ensures Reaches(S1(), S2())
  {
    ForkReaches(S1(), 2, 2);
    assert [] + [3] == [3];
    assert Forked(S1(), 2, 2).tasks == S2().tasks && Forked(S1(), 2, 2).threads == S2().threads;
  }

  lemma To3()
    ensures Reaches(S2(), S3())
  {
    ForkReaches(S2(), 2, 2);
    assert [3] + [4] == [3, 4];
    assert Forked(S2(), 2, 2).tasks == S3().tasks && Forked(S2(), 2, 2).threads == S3().threads;
  }

  lemma To4()
    ensures Reaches(S3(), S4())
  {
    ForkReaches(S3(), 1, 1);
    assert [2] + [5] == [2, 5];
    assert Forked(S3(), 1, 1).tasks == S4().tasks && Forked(S3(), 1, 1).threads == S4().threads;
  }

  lemma To5()
    ensures Reaches(S4(), S5())
  {
    SpawnReaches(S4(), 1, 1);
    assert [1] + [6] == [1, 6];
    assert Spawned(S4(), 1).tasks == S5().tasks && Spawned(S4(), 1).threads == S5().threads;
  }

  lemma To6()
    ensures Reaches(S5(), S6())
  {
    WaitReaches(S5(), 1, 1);
    assert [] + [1] == [1];
    assert Waiting(S5(), 1, 1).tasks == S6().tasks && Waiting(S5(), 1, 1).threads == S6().threads;
  }

  lemma To7()
    ensures Reaches(S6(), S7())
  {
    WaitReaches(S6(), 6, 1);
    assert [1] + [6] == [1, 6];
    assert Waiting(S6(), 6, 1).tasks == S7().tasks && Waiting(S6(), 6, 1).threads == S7().threads;
  }

  lemma To8()
    ensures Reaches(S7(), S8())
  {
    LeaveReaches(S7(), 3, 3);
    var s := Left(S7(), 3, 3);
    assert Without([3, 4], 3) == [4] && [] + [3] == [3];
    ReportReaches(s, 3, 3, 2);
    assert Reported(s, 3, 3, 2).tasks == S8().tasks && Reported(s, 3, 3, 2).threads == S8().threads;
    ReachesBoth(S7(), s, S8());
  }

  lemma To9()
    ensures Reaches(S8(), S9())
  {
    LeaveReaches(S8(), 4, 4);
    var s := Left(S8(), 4, 4);
    assert Without([4], 4) == [] && [3] + [4] == [3, 4];
    ReportReaches(s, 4, 4, 2);
    assert Reported(s, 4, 4, 2).tasks == S9().tasks && Reported(s, 4, 4, 2).threads == S9().threads;
    ReachesBoth(S8(), s, S9());
  }

  lemma To10()
    ensures Reaches(S9(), S10())
  {
    LeaveReaches(S9(), 2, 2);
    var s := Left(S9(), 2, 2);
    var s' := WithPc(WithTask(s, 1, s.tasks[1].(mux := Some(2))), 2, VanHasInit);
    assert s'.tasks == S10().tasks && s'.threads == S10().threads;
    Then(S9(), s, Go(2), S10());
  }

  lemma ToTransfer()
    ensures Reachable(S10())
  {
    To1();
    To2();
    To3();
    To4();
    To5();
    To6();
    To7();
    To8();
    To9();
    To10();
    ReachesBoth(S1(), S2(), S3());
    ReachesBoth(S3(), S4(), S5());
    ReachesBoth(S5(), S6(), S7());
    ReachesBoth(S7(), S8(), S9());
    ReachesBoth(S1(), S3(), S5());
    ReachesBoth(S7(), S9(), S10());
    ReachesBoth(S1(), S5(), S7());
    ReachesBoth(S1(), S7(), S10());
    ReachesBoth(Initial(1, 1), S1(), S10());
  }

  lemma ServesOnlyOne(s: State)
    requires Reachable(s) && s == S10()
    ensures HandOver(s, 2).Step? && s.init in HandOver(s, 2).s.tasks
    ensures NotBoth(s, s.init) && !NotBoth(HandOver(s, 2).s, s.init)
  {
    ReachableInv(s);
    TransferServesOne(s, 2);
  }

  /** init forks, its child forks twice, init forks again and waits with two threads; the two grandchildren die
      before their parent.  The parent's transfer serves one waiter and leaves the other beside a dead child. */
  lemma TransferLeavesBoth() returns (s: State, s': State)
    ensures Reachable(s) && Next(s, Go(2)) == Step(s') && s.init in s.tasks && s.init in s'.tasks
    ensures NotBoth(s, s.init) && !NotBoth(s', s.init)
  {
    ToTransfer();
    s := S10();
    ServesOnlyOne(s);
    s' := HandOver(s, 2).s;
  }
}
