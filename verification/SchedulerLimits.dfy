/** Two short runs of the machine that show why the conditions of module SchedulerRuns are needed. */
module SchedulerLimits {
  import opened Seqs
  import opened Scheduler
  import opened SchedulerInvariant
  import opened SchedulerSteps
  import opened SchedulerTheorems
  import opened SchedulerRuns
  import Sleep = SchedulerSleep

  ghost predicate Leads(s: State, acts: seq<Action>, s': State) {
    Run(s, acts) == Step(s') && NoSelfYield(s, acts)
  }

  lemma {:induction false} Join(s: State, xs: seq<Action>, s': State, ys: seq<Action>, s'': State)
    requires Leads(s, xs, s') && Leads(s', ys, s'')
    ensures Leads(s, xs + ys, s'')
    decreases |xs|
  {
    if xs == [] {
      assert xs + ys == ys;
    } else {
      assert (xs + ys)[1..] == xs[1..] + ys;
      match Next(s, xs[0])
      case Step(s1) => Join(s1, xs[1..], s', ys, s'');
      case Disabled => Join(s, xs[1..], s', ys, s'');
    }
  }

  lemma One(s: State, a: Action)
    requires Next(s, a).Step? && !SelfYield(s, a)
    ensures Leads(s, [a], Next(s, a).s)
  {
    assert Run(Next(s, a).s, [a][1..]) == Step(Next(s, a).s);
    assert NoSelfYield(Next(s, a).s, [a][1..]);
  }

  lemma Two(s: State, a: Action, b: Action)
    requires Next(s, a).Step? && !SelfYield(s, a)
    requires Next(Next(s, a).s, b).Step? && !SelfYield(Next(s, a).s, b)
    ensures Leads(s, [a, b], Next(Next(s, a).s, b).s)
  {
    One(s, a);
    One(Next(s, a).s, b);
    Join(s, [a], Next(s, a).s, [b], Next(Next(s, a).s, b).s);
    assert [a] + [b] == [a, b];
  }

  // ------------------------------------------------------------------ a waiter on a free mutex

  /** Two threads, mutexes 0 and 7, nobody asleep. */
  function Pair(running: Tid, st1: Status, st2: Status, pc2: Pc, x: Mutex, picks: nat): State {
    State(running, [if running == 1 then 2 else 1], map[1 := st1, 2 := st2], map[1 := Idle, 2 := pc2],
          map[1 := 0, 2 := 0], map[0 := FreeMutex(), 7 := x], 0, [], {}, 0, UINT_MAX, None, picks)
  }

  lemma PairStarts()
    ensures Leads(Initial(1, {7}, 0), [Calls(Create(2)), Calls(Start(2))], Pair(1, Running, Runnable, Idle, FreeMutex(), 0))
  {
    var s0 := Initial(1, {7}, 0);
    assert s0.mutexes == map[0 := FreeMutex(), 7 := FreeMutex()];
    Two(s0, Calls(Create(2)), Calls(Start(2)));
    var s2 := Next(Next(s0, Calls(Create(2))).s, Calls(Start(2))).s;
    assert s2.status == map[1 := Running, 2 := Runnable];
    assert s2 == Pair(1, Running, Runnable, Idle, FreeMutex(), 0);
  }

  function Held7(): Mutex {
    Mutex(true, 1, [], [], [], {1})
  }

  lemma PairLocks()
    ensures Leads(Pair(1, Running, Runnable, Idle, FreeMutex(), 0), [Calls(Lock(7)), Preempts],
                  Pair(2, Runnable, Running, Idle, Held7(), 1))
  {
    var s := Pair(1, Running, Runnable, Idle, FreeMutex(), 0);
    var s1 := Next(s, Calls(Lock(7))).s;
    assert FreeMutex().inside + {1} == {1};
    assert s1 == Pair(1, Running, Runnable, Idle, Held7(), 0);
    var s2 := Next(s1, Preempts).s;
    assert s2 == Pair(2, Runnable, Running, Idle, Held7(), 1);
    Two(s, Calls(Lock(7)), Preempts);
  }

  lemma PairGap()
    ensures Leads(Pair(2, Runnable, Running, Idle, Held7(), 1), [Calls(Lock(7)), Preempts],
                  Pair(1, Running, Runnable, LockGap(7, false), Held7(), 2))
  {
    var s := Pair(2, Runnable, Running, Idle, Held7(), 1);
    var s1 := Next(s, Calls(Lock(7))).s;
    assert s1 == Pair(2, Runnable, Running, LockGap(7, false), Held7(), 1);
    var s2 := Next(s1, Preempts).s;
    assert s2 == Pair(1, Running, Runnable, LockGap(7, false), Held7(), 2);
    Two(s, Calls(Lock(7)), Preempts);
  }

  function Freed7(): Mutex {
    Mutex(false, 1, [], [], [], {})
  }

  lemma PairUnlocks()
    ensures Leads(Pair(1, Running, Runnable, LockGap(7, false), Held7(), 2), [Calls(Unlocks(7)), Preempts],
                  Pair(2, Runnable, Running, LockGap(7, false), Freed7(), 3))
  {
    var s := Pair(1, Running, Runnable, LockGap(7, false), Held7(), 2);
    var s1 := Next(s, Calls(Unlocks(7))).s;
    assert Held7().inside - {1} == {};
    assert s1 == Pair(1, Running, Runnable, LockGap(7, false), Freed7(), 2);
    var s2 := Next(s1, Preempts).s;
    assert s2 == Pair(2, Runnable, Running, LockGap(7, false), Freed7(), 3);
    Two(s, Calls(Unlocks(7)), Preempts);
  }

  lemma PairBlocks() returns (s: State)
    ensures Leads(Pair(2, Runnable, Running, LockGap(7, false), Freed7(), 3), [Goes], s)
    ensures 7 in s.mutexes && !s.mutexes[7].owned && s.mutexes[7].waiters == [2]
  {
    var s0 := Pair(2, Runnable, Running, LockGap(7, false), Freed7(), 3);
    s := Next(s0, Goes).s;
    One(s0, Goes);
  }

  lemma PairToGap() returns (acts: seq<Action>)
    ensures Leads(Initial(1, {7}, 0), acts, Pair(1, Running, Runnable, LockGap(7, false), Held7(), 2))
  {
    var s0, s1 := Initial(1, {7}, 0), Pair(1, Running, Runnable, Idle, FreeMutex(), 0);
    var s2, s3 := Pair(2, Runnable, Running, Idle, Held7(), 1), Pair(1, Running, Runnable, LockGap(7, false), Held7(), 2);
    var a1, a2 := [Calls(Create(2)), Calls(Start(2))], [Calls(Lock(7)), Preempts];
    PairStarts();
    PairLocks();
    Join(s0, a1, s1, a2, s2);
    PairGap();
    acts := a1 + a2;
    Join(s0, acts, s2, a2, s3);
    acts := acts + a2;
  }

  lemma PairFromGap() returns (acts: seq<Action>, s: State)
    ensures Leads(Pair(1, Running, Runnable, LockGap(7, false), Held7(), 2), acts, s)
    ensures 7 in s.mutexes && !s.mutexes[7].owned && s.mutexes[7].waiters == [2]
  {
    acts := [Calls(Unlocks(7)), Preempts];
    s := PairBlocks();
    PairUnlocks();
    Join(Pair(1, Running, Runnable, LockGap(7, false), Held7(), 2), acts,
         Pair(2, Runnable, Running, LockGap(7, false), Freed7(), 3), [Goes], s);
    acts := acts + [Goes];
  }

  /** Thread 1 owns mutex 7; thread 2 finds it owned; 1 unlocks; 2 blocks on the free mutex. */
  lemma LostWaiter()
    ensures exists acts, s: State :: Leads(Initial(1, {7}, 0), acts, s) && !WaitersOwned(s)
  {
    var xs := PairToGap();
    var ys, s := PairFromGap();
    Join(Initial(1, {7}, 0), xs, Pair(1, Running, Runnable, LockGap(7, false), Held7(), 2), ys, s);
    assert !FreeIsEmpty(s, 7);
  }

  // ------------------------------------------------------------------ an index that is not exact

  /** The run, state by state.  1 sleeps for a tick; 2 locks sleep_mux to do the same; a tick interrupts 3,
      whose scan resets the index and blocks; 2 stores its date; the scan wakes both and leaves the index
      at their date. */
  function Trio(running: Tid, runq: seq<Tid>, status: map<Tid, Status>, pc2: Pc, pc1: Pc, e1: nat, e2: nat, x: Mutex,
                sleepq: seq<Tid>, ticks: nat, earliest: nat, scan: Option<Scan>, picks: nat): State {
    State(running, runq, status, map[1 := pc1, 2 := pc2, 3 := Idle], map[1 := e1, 2 := e2, 3 := 0],
          map[0 := x], 0, sleepq, {}, ticks, earliest, scan, picks)
  }

  function Scans(phase: Phase, rest: seq<Tid>, start: seq<Tid>, past: seq<Tid>, low: bool): Option<Scan> {
    Some(Scan(3, 1, phase, rest, start, map[1 := 1, 2 := 1, 3 := 0], past, past, [], low))
  }

  function Late0(): State {
    Trio(1, [2, 3], map[1 := Running, 2 := Runnable, 3 := Runnable], Idle, Idle, 0, 0,
         FreeMutex(), [], 0, UINT_MAX, None, 0)
  }

  function Late1(): State {
    Trio(1, [2, 3], map[1 := Running, 2 := Runnable, 3 := Runnable], Idle, SleepHasMux, 1, 0,
         Mutex(true, 1, [], [], [], {1}), [], 0, UINT_MAX, None, 0)
  }

  function Late2(): State {
    Trio(2, [3], map[1 := Blocked, 2 := Running, 3 := Runnable], Idle, Idle, 1, 0,
         Mutex(false, 1, [], [], [], {}), [1], 0, 1, None, 1)
  }

  function Late3(): State {
    Trio(2, [3], map[1 := Blocked, 2 := Running, 3 := Runnable], SleepHasMux, Idle, 1, 1,
         Mutex(true, 2, [], [], [], {2}), [1], 0, 1, None, 1)
  }

  function Late4(): State {
    Trio(3, [2], map[1 := Blocked, 2 := Runnable, 3 := Running], SleepHasMux, Idle, 1, 1,
         Mutex(true, 2, [], [], [], {2}), [1], 0, 1, None, 2)
  }

  function Late5(): State {
    Trio(3, [2], map[1 := Blocked, 2 := Runnable, 3 := Running], SleepHasMux, Idle, 1, 1,
         Mutex(true, 2, [], [], [], {2}), [1], 1, UINT_MAX, Scans(ScanGap, [1], [1], [], false), 2)
  }

  function Late6(): State {
    Trio(2, [], map[1 := Blocked, 2 := Running, 3 := Blocked], SleepHasMux, Idle, 1, 1,
         Mutex(true, 2, [3], [3], [], {2}), [1], 1, UINT_MAX, Scans(ScanWait, [1], [1], [], false), 3)
  }

  function Late7(): State {
    Trio(3, [], map[1 := Blocked, 2 := Blocked, 3 := Running], Idle, Idle, 1, 1,
         Mutex(true, 3, [], [3], [3], {}), [1, 2], 1, 1, Scans(ScanWait, [1], [1], [], true), 4)
  }

  function Late8(): State {
    Trio(3, [], map[1 := Blocked, 2 := Blocked, 3 := Running], Idle, Idle, 1, 1,
         Mutex(true, 3, [], [3], [3], {3}), [1, 2], 1, 1, Scans(ScanLoop, [1, 2], [1, 2], [], true), 4)
  }

  function Late9(): State {
    Trio(3, [], map[1 := Blocked, 2 := Blocked, 3 := Running], Idle, Idle, 1, 1,
         Mutex(true, 3, [], [3], [3], {3}), [2], 1, 1, Scans(ScanWake(1), [2], [1, 2], [1], true), 4)
  }

  function Late10(): State {
    Trio(1, [3], map[1 := Running, 2 := Blocked, 3 := Runnable], Idle, Idle, 1, 1,
         Mutex(true, 3, [], [3], [3], {3}), [2], 1, 1, Scans(ScanLoop, [2], [1, 2], [1], true), 4)
  }

  function Late11(): State {
    Trio(3, [1], map[1 := Runnable, 2 := Blocked, 3 := Running], Idle, Idle, 1, 1,
         Mutex(true, 3, [], [3], [3], {3}), [2], 1, 1, Scans(ScanLoop, [2], [1, 2], [1], true), 5)
  }

  function Late12(): State {
    Trio(3, [1], map[1 := Runnable, 2 := Blocked, 3 := Running], Idle, Idle, 1, 1,
         Mutex(true, 3, [], [3], [3], {3}), [], 1, 1, Scans(ScanWake(2), [], [1, 2], [1, 2], true), 5)
  }

  function Late13(): State {
    Trio(2, [1, 3], map[1 := Runnable, 2 := Running, 3 := Runnable], Idle, Idle, 1, 1,
         Mutex(true, 3, [], [3], [3], {3}), [], 1, 1, Scans(ScanLoop, [], [1, 2], [1, 2], true), 5)
  }

  function Late14(): State {
    Trio(1, [3, 2], map[1 := Running, 2 := Runnable, 3 := Runnable], Idle, Idle, 1, 1,
         Mutex(true, 3, [], [3], [3], {3}), [], 1, 1, Scans(ScanLoop, [], [1, 2], [1, 2], true), 6)
  }

  function Late15(): State {
    Trio(3, [2, 1], map[1 := Runnable, 2 := Runnable, 3 := Running], Idle, Idle, 1, 1,
         Mutex(true, 3, [], [3], [3], {3}), [], 1, 1, Scans(ScanLoop, [], [1, 2], [1, 2], true), 7)
  }

  function Late16(): State {
    Trio(3, [2, 1], map[1 := Runnable, 2 := Runnable, 3 := Running], Idle, Idle, 1, 1,
         Mutex(false, 3, [], [3], [3], {}), [], 1, 1, Scans(ScanDone, [], [1, 2], [1, 2], true), 7)
  }

  lemma LateStarts() returns (acts: seq<Action>)
    ensures Leads(Initial(1, {}, 0), acts, Late0())
  {
    var s0 := Initial(1, {}, 0);
    assert s0.mutexes == map[0 := FreeMutex()];
    Two(s0, Calls(Create(2)), Calls(Start(2)));
    var s2 := Next(Next(s0, Calls(Create(2))).s, Calls(Start(2))).s;
    assert s2 == s0.(runq := [2], status := map[1 := Running, 2 := Runnable], pc := map[1 := Idle, 2 := Idle],
                     expiry := map[1 := 0, 2 := 0]);
    Two(s2, Calls(Create(3)), Calls(Start(3)));
    assert Next(Next(s2, Calls(Create(3))).s, Calls(Start(3))).s == Late0();
    acts := [Calls(Create(2)), Calls(Start(2))] + [Calls(Create(3)), Calls(Start(3))];
    Join(s0, [Calls(Create(2)), Calls(Start(2))], s2, [Calls(Create(3)), Calls(Start(3))], Late0());
  }

  lemma LateStep1()
    ensures Next(Late0(), Calls(Call.Sleep(1))) == Step(Late1())
  {
    assert Late0().mutexes[0].inside + {1} == {1};
    var s' := Next(Late0(), Calls(Call.Sleep(1))).s;
    assert s'.mutexes == Late1().mutexes;
    assert s'.status == Late1().status;
  }

  lemma LateStep2()
    ensures Next(Late1(), Goes) == Step(Late2())
  {
    assert Late1().mutexes[0].inside - {1} == {};
    var s, s' := Late1(), Next(Late1(), Goes).s;
    assert s'.status == Late2().status && s'.mutexes == Late2().mutexes;
  }

  lemma LateStep3()
    ensures Next(Late2(), Calls(Call.Sleep(1))) == Step(Late3())
  {
    assert Late2().mutexes[0].inside + {2} == {2};
    var s, s' := Late2(), Next(Late2(), Calls(Call.Sleep(1))).s;
    assert s'.status == Late3().status && s'.mutexes == Late3().mutexes;
  }

  lemma LateStep4()
    ensures Next(Late3(), Preempts) == Step(Late4())
  {
    var s, s' := Late3(), Next(Late3(), Preempts).s;
    assert s'.status == Late4().status && s'.mutexes == Late4().mutexes;
  }

  lemma LateStep5()
    ensures Next(Late4(), Ticks) == Step(Late5())
  {
    var s, s' := Late4(), Next(Late4(), Ticks).s;
    assert s'.status == Late5().status && s'.mutexes == Late5().mutexes;
  }

  lemma LateStep6()
    ensures Next(Late5(), Goes) == Step(Late6())
  {
    assert Late5().mutexes[0].waiters + [3] == [3] && Late5().mutexes[0].enq + [3] == [3];
    var s, s' := Late5(), Next(Late5(), Goes).s;
    assert s'.status == Late6().status && s'.mutexes == Late6().mutexes;
  }

  lemma LateStep7()
    ensures Next(Late6(), Goes) == Step(Late7())
  {
    assert Late6().mutexes[0].inside - {2} == {} && Late6().mutexes[0].waiters[1..] == []
           && Late6().mutexes[0].granted + [3] == [3];
    var s, s' := Late6(), Next(Late6(), Goes).s;
    assert s'.status == Late7().status && s'.mutexes == Late7().mutexes;
  }

  lemma LateStep8()
    ensures Next(Late7(), Goes) == Step(Late8())
  {
    assert Late7().mutexes[0].inside + {3} == {3};
    var s, s' := Late7(), Next(Late7(), Goes).s;
    assert s'.status == Late8().status && s'.mutexes == Late8().mutexes;
  }

  lemma LateStep9()
    ensures Next(Late8(), Goes) == Step(Late9())
  {
    assert [2] == [1, 2][1..] && Without([1, 2], 1) == [2] && Late8().scan.value.past + [1] == [1];
    var s, s' := Late8(), Next(Late8(), Goes).s;
    assert s'.status == Late9().status && s'.mutexes == Late9().mutexes;
  }

  lemma LateStep10()
    ensures Next(Late9(), Goes) == Step(Late10())
  {
    var s, s' := Late9(), Next(Late9(), Goes).s;
    assert s'.status == Late10().status && s'.mutexes == Late10().mutexes;
  }

  lemma LateStep11()
    ensures Next(Late10(), Preempts) == Step(Late11())
  {
    var s, s' := Late10(), Next(Late10(), Preempts).s;
    assert s'.status == Late11().status && s'.mutexes == Late11().mutexes;
  }

  lemma LateStep12()
    ensures Next(Late11(), Goes) == Step(Late12())
  {
    assert Late11().scan.value.rest[1..] == [] && Without([2], 2) == [] && Late11().scan.value.past + [2] == [1, 2];
    var s, s' := Late11(), Next(Late11(), Goes).s;
    assert s'.status == Late12().status && s'.mutexes == Late12().mutexes;
  }

  lemma LateStep13()
    ensures Next(Late12(), Goes) == Step(Late13())
  {
    var s, s' := Late12(), Next(Late12(), Goes).s;
    assert s'.status == Late13().status && s'.mutexes == Late13().mutexes;
  }

  lemma LateStep14()
    ensures Next(Late13(), Preempts) == Step(Late14())
  {
    var s, s' := Late13(), Next(Late13(), Preempts).s;
    assert s'.status == Late14().status && s'.mutexes == Late14().mutexes;
  }

  lemma LateStep15()
    ensures Next(Late14(), Preempts) == Step(Late15())
  {
    var s, s' := Late14(), Next(Late14(), Preempts).s;
    assert s'.status == Late15().status && s'.mutexes == Late15().mutexes;
  }

  lemma LateStep16()
    ensures Next(Late15(), Goes) == Step(Late16())
  {
    assert Late15().mutexes[0].inside - {3} == {};
    var s, s' := Late15(), Next(Late15(), Goes).s;
    assert s'.status == Late16().status && s'.mutexes == Late16().mutexes;
  }

  lemma Snoc(s0: State, acts: seq<Action>, s: State, a: Action, s': State)
    requires Leads(s0, acts, s) && Next(s, a) == Step(s') && !SelfYield(s, a)
    ensures Leads(s0, acts + [a], s')
  {
    One(s, a);
    Join(s0, acts, s, [a], s');
  }

  lemma LateTo4() returns (acts: seq<Action>)
    ensures Leads(Initial(1, {}, 0), acts, Late4())
  {
    acts := LateStarts();
    var s0 := Initial(1, {}, 0);
    LateStep1();
    Snoc(s0, acts, Late0(), Calls(Call.Sleep(1)), Late1());
    acts := acts + [Calls(Call.Sleep(1))];
    LateStep2();
    Snoc(s0, acts, Late1(), Goes, Late2());
    acts := acts + [Goes];
    LateStep3();
    Snoc(s0, acts, Late2(), Calls(Call.Sleep(1)), Late3());
    acts := acts + [Calls(Call.Sleep(1))];
    LateStep4();
    Snoc(s0, acts, Late3(), Preempts, Late4());
    acts := acts + [Preempts];
  }

  lemma LateTo8() returns (acts: seq<Action>)
    ensures Leads(Initial(1, {}, 0), acts, Late8())
  {
    acts := LateTo4();
    var s0 := Initial(1, {}, 0);
    LateStep5();
    Snoc(s0, acts, Late4(), Ticks, Late5());
    acts := acts + [Ticks];
    LateStep6();
    Snoc(s0, acts, Late5(), Goes, Late6());
    acts := acts + [Goes];
    LateStep7();
    Snoc(s0, acts, Late6(), Goes, Late7());
    acts := acts + [Goes];
    LateStep8();
    Snoc(s0, acts, Late7(), Goes, Late8());
    acts := acts + [Goes];
  }

  lemma LateTo12() returns (acts: seq<Action>)
    ensures Leads(Initial(1, {}, 0), acts, Late12())
  {
    acts := LateTo8();
    var s0 := Initial(1, {}, 0);
    LateStep9();
    Snoc(s0, acts, Late8(), Goes, Late9());
    acts := acts + [Goes];
    LateStep10();
    Snoc(s0, acts, Late9(), Goes, Late10());
    acts := acts + [Goes];
    LateStep11();
    Snoc(s0, acts, Late10(), Preempts, Late11());
    acts := acts + [Preempts];
    LateStep12();
    Snoc(s0, acts, Late11(), Goes, Late12());
    acts := acts + [Goes];
  }

  lemma LateTo16() returns (acts: seq<Action>)
    ensures Leads(Initial(1, {}, 0), acts, Late16())
  {
    acts := LateTo12();
    var s0 := Initial(1, {}, 0);
    LateStep13();
    Snoc(s0, acts, Late12(), Goes, Late13());
    acts := acts + [Goes];
    LateStep14();
    Snoc(s0, acts, Late13(), Preempts, Late14());
    acts := acts + [Preempts];
    LateStep15();
    Snoc(s0, acts, Late14(), Preempts, Late15());
    acts := acts + [Preempts];
    LateStep16();
    Snoc(s0, acts, Late15(), Goes, Late16());
    acts := acts + [Goes];
  }

  /** After that run no scan is in its window, nobody sleeps, and the index still names tick 1. */
  lemma StaleIndex()
    ensures exists acts, s: State :: Leads(Initial(1, {}, 0), acts, s) && !IndexExact(s)
  {
    var acts := LateTo16();
    var z := SleepersOf(Late16());
    assert Sleep.Settled(z) && z.earliest == 1 && z.queue == [];
    assert !Attained(z) && !IndexExact(Late16());
  }

  // ------------------------------------------------------------------ yield to oneself

  lemma SelfYieldRuns()
    ensures var s := Initial(1, {}, 0);
            Next(s, Calls(Yield(Some(1)))) == Step(AddToRun(s, 1)) && AddToRun(s, 1).status == map[1 := Runnable]
  {
    var s := Initial(1, {}, 0);
    var s1 := AddToRun(s, 1);
    assert AddToRun(WithStatus(s, 1, Runnable), 1) == s1;
    assert !InSomeQueue(s1, 1);
  }

  /** The first thread of the machine yields to itself: it runs on with status RUNNABLE and is on the runnable
      queue, so the next insertion of its link would be the second. */
  lemma InitialSelfYield()
    ensures var s := Initial(1, {}, 0);
            var o := Next(s, Calls(Yield(Some(1))));
            && Inv(s) && o.Step? && !Inv(o.s)
            && o.s.running == 1 && o.s.runq == [1] && o.s.status == map[1 := Runnable]
  {
    SelfYieldRuns();
    InitialInv(1, {}, 0);
    StepKeepsIff(Initial(1, {}, 0), Calls(Yield(Some(1))));
  }
}
