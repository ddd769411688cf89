/** What the semaphore is for: its count is what it was given, and a thread comes back from sem_wait once there is
    something to take.  Counted over what threads called, not over what a step wrote. */
module SemaphoreBalance {
  import opened Seqs
  import opened Semaphore

  // ------------------------------------------------------------------ the balance

  /** The calls of sem_signal that the run makes. */
  function SignalCalls(s: State, acts: seq<Action>): nat
    decreases |acts|
  {
    if acts == [] then 0
    else
      match Next(s, acts[0])
      case Step(s') => (if acts[0].Signal? then 1 else 0) + SignalCalls(s', acts[1..])
      case Disabled => SignalCalls(s, acts[1..])
      case NegativeCount => 0
  }

  /** The calls of sem_wait that the run makes. */
  function WaitCalls(s: State, acts: seq<Action>): nat
    decreases |acts|
  {
    if acts == [] then 0
    else
      match Next(s, acts[0])
      case Step(s') => (if acts[0].Wait? then 1 else 0) + WaitCalls(s', acts[1..])
      case Disabled => WaitCalls(s, acts[1..])
      case NegativeCount => 0
  }

  /** In sem_signal, with the increment still to come. */
  predicate BeforeAdd(pc: Pc) {
    pc.SignalWant? || pc.SignalAdd?
  }

  /** Anywhere in sem_wait. */
  predicate InWait(pc: Pc) {
    || pc.WaitWant? || pc.WaitTest? || pc.CondWant? || pc.CondEnqueue? || pc.CondLeave? || pc.CondTest?
    || pc.CondAsleep?
  }

  function Signalling(s: State): set<Tid> {
    set t | t in s.pc && BeforeAdd(s.pc[t])
  }

  function Waiting(s: State): set<Tid> {
    set t | t in s.pc && InWait(s.pc[t])
  }

  /** What every call of sem_signal raises by one and every call of sem_wait lowers by one, at once. */
  function Promised(s: State): int {
    s.count + |Signalling(s)| - |Waiting(s)|
  }

  lemma CardMove(xs: set<Tid>, ys: set<Tid>, t: Tid)
    requires xs - {t} == ys - {t}
    ensures |ys| == |xs| + (if t in ys then 1 else 0) - (if t in xs then 1 else 0)
  {
    assert t in xs ==> xs == (xs - {t}) + {t};
    assert t in ys ==> ys == (ys - {t}) + {t};
    assert t !in xs ==> xs == xs - {t};
    assert t !in ys ==> ys == ys - {t};
  }

  /** The sets after the program counter of t changed. */
  lemma MoveOne(s: State, s': State, t: Tid)
    requires t in s.pc && t in s'.pc && s'.pc == s.pc[t := s'.pc[t]]
    ensures |Signalling(s')| == |Signalling(s)| + (if BeforeAdd(s'.pc[t]) then 1 else 0) - (if BeforeAdd(s.pc[t]) then 1 else 0)
    ensures |Waiting(s')| == |Waiting(s)| + (if InWait(s'.pc[t]) then 1 else 0) - (if InWait(s.pc[t]) then 1 else 0)
  {
    CardMove(Signalling(s), Signalling(s'), t);
    CardMove(Waiting(s), Waiting(s'), t);
  }

  lemma WakeMoves(s: State, t: Tid)
    requires t in s.pc && s.pc[t].SignalWake? && s.pc[t].u in s.pc && s.pc[s.pc[t].u] == CondAsleep
    ensures Promised(GoStep(s, t).s) == Promised(s)
  {
    var s1 := At(s, s.pc[t].u, CondTest);
    MoveOne(s, s1, s.pc[t].u);
    MoveOne(s1, GoStep(s, t).s, t);
  }

  lemma StepPromises(s: State, a: Action)
    requires Next(s, a).Step?
    ensures Promised(Next(s, a).s) == Promised(s) + (if a.Signal? then 1 else if a.Wait? then -1 else 0)
  {
    if a.Go? && s.pc[a.t].SignalWake? {
      if s.pc[a.t].u in s.pc && s.pc[s.pc[a.t].u] == CondAsleep {
        WakeMoves(s, a.t);
      }
    } else {
      MoveOne(s, Next(s, a).s, a.t);
    }
  }

  lemma {:induction false} RunPromises(s: State, acts: seq<Action>)
    requires Run(s, acts).Step?
    ensures Promised(Run(s, acts).s) == Promised(s) + SignalCalls(s, acts) - WaitCalls(s, acts)
    decreases |acts|
  {
    if acts != [] {
      match Next(s, acts[0])
      case Step(s') =>
        StepPromises(s, acts[0]);
        RunPromises(s', acts[1..]);
      case Disabled => RunPromises(s, acts[1..]);
    }
  }

  /** Over every run no affirm fails and the count is never negative: it is the initial count, plus the calls of sem_signal
      that have got as far as the increment, minus the calls of sem_wait that have returned. */
  lemma CountIsBalance(count: nat, ts: set<Tid>, acts: seq<Action>)
    ensures Run(Initial(count, ts), acts).Step?
    ensures var s0, s := Initial(count, ts), Run(Initial(count, ts), acts).s;
            && s.count >= 0
            && s.count == count + (SignalCalls(s0, acts) - |Signalling(s)|) - (WaitCalls(s0, acts) - |Waiting(s)|)
  {
    var s0 := Initial(count, ts);
    NeverNegative(s0, acts);
    RunStepOrNegative(s0, acts);
    InitialInv(count, ts);
    RunInv(s0, acts);
    RunPromises(s0, acts);
    assert Signalling(s0) == {} && Waiting(s0) == {};
  }

  /** With every thread back from its calls, the count is what came in less what went out. */
  lemma CountWhenQuiet(count: nat, ts: set<Tid>, acts: seq<Action>)
    requires Run(Initial(count, ts), acts).Step?
    requires forall t :: t in Run(Initial(count, ts), acts).s.pc ==> Run(Initial(count, ts), acts).s.pc[t] == Idle
    ensures var s0 := Initial(count, ts);
            Run(s0, acts).s.count == count + SignalCalls(s0, acts) - WaitCalls(s0, acts)
  {
    CountIsBalance(count, ts, acts);
    var s := Run(Initial(count, ts), acts).s;
    assert Signalling(s) == {} && Waiting(s) == {};
  }

  // ------------------------------------------------------------------ calls that return

  function Gos(t: Tid, n: nat): seq<Action> {
    if n == 0 then [] else [Go(t)] + Gos(t, n - 1)
  }

  lemma Then(s: State, a: Action, s': State, rest: seq<Action>)
    requires Next(s, a) == Step(s')
    ensures Run(s, [a] + rest) == Run(s', rest)
  {
    assert ([a] + rest)[1..] == rest;
  }

  lemma GoThen(s: State, t: Tid, s': State, n: nat)
    requires Next(s, Go(t)) == Step(s')
    ensures Run(s, Gos(t, n + 1)) == Run(s', Gos(t, n))
  {
    Then(s, Go(t), s', Gos(t, n));
  }

  lemma GoLast(s: State, t: Tid, s': State)
    requires Next(s, Go(t)) == Step(s')
    ensures Run(s, Gos(t, 1)) == Step(s')
  {
    GoThen(s, t, s', 0);
  }

  /** A free semaphore, and a thread with nothing to do. */
  ghost predicate Open(s: State, t: Tid) {
    Inv(s) && s.mux == None && t in s.pc && s.pc[t] == Idle
  }

  lemma OpenIs(s: State, t: Tid)
    requires Open(s, t)
    ensures s.cvMux == None && t !in s.woken && t !in s.queue
  {
    assert ThreadOk(s, t);
    assert s.cvMux.Some? ==> ThreadOk(s, s.cvMux.value);
  }

  /** sem_wait takes one at once when there is one. */
  lemma WaitReturns(s: State, t: Tid)
    requires Open(s, t) && s.count > 0
    ensures Run(s, [Wait(t)] + Gos(t, 2)) == Step(s.(count := s.count - 1))
  {
    OpenIs(s, t);
    var s1, s2, s3 := At(s, t, WaitWant), At(s, t, WaitTest).(mux := Some(t)), s.(count := s.count - 1);
    assert s3.pc == s2.pc[t := Idle] && s.woken - {t} == s.woken;
    Then(s, Wait(t), s1, Gos(t, 2));
    GoThen(s1, t, s2, 1);
    GoLast(s2, t, s3);
  }

  /** ... and goes to sleep behind the others when there is none. */
  lemma WaitSleeps(s: State, t: Tid)
    requires Open(s, t) && s.count == 0
    ensures Run(s, [Wait(t)] + Gos(t, 6)) == Step(At(s, t, CondAsleep).(queue := s.queue + [t]))
  {
    OpenIs(s, t);
    var s1, s2 := At(s, t, WaitWant), At(s, t, WaitTest).(mux := Some(t));
    var s3 := At(s, t, CondWant).(mux := Some(t));
    assert s.woken - {t} == s.woken;
    Then(s, Wait(t), s1, Gos(t, 6));
    GoThen(s1, t, s2, 5);
    GoThen(s2, t, s3, 4);
    Enqueues(s, t);
  }

  lemma Enqueues(s: State, t: Tid)
    requires s.mux == None && s.cvMux == None && t in s.pc && t !in s.woken
    ensures Run(At(s, t, CondWant).(mux := Some(t)), Gos(t, 4)) == Step(At(s, t, CondAsleep).(queue := s.queue + [t]))
  {
    var s3 := At(s, t, CondWant).(mux := Some(t));
    var s4 := At(s, t, CondEnqueue).(mux := Some(t), cvMux := Some(t));
    var s5 := At(s, t, CondLeave).(mux := Some(t), cvMux := Some(t), queue := s.queue + [t]);
    var s6 := At(s, t, CondTest).(queue := s.queue + [t]);
    GoThen(s3, t, s4, 3);
    GoThen(s4, t, s5, 2);
    GoThen(s5, t, s6, 1);
    GoLast(s6, t, At(s, t, CondAsleep).(queue := s.queue + [t]));
  }

  /** sem_signal with nobody queued adds one and returns. */
  lemma SignalReturns(s: State, t: Tid)
    requires Open(s, t) && s.queue == []
    ensures Run(s, [Signal(t)] + Gos(t, 5)) == Step(s.(count := s.count + 1))
  {
    OpenIs(s, t);
    SignalAdds(s, t, 3);
    var s3 := At(s, t, SignalCv).(mux := Some(t), count := s.count + 1);
    var s4 := At(s, t, SignalPop).(mux := Some(t), cvMux := Some(t), count := s.count + 1);
    var s5 := At(s, t, SignalLeave).(mux := Some(t), cvMux := Some(t), count := s.count + 1);
    var s6 := s.(count := s.count + 1);
    assert s6.pc == s5.pc[t := Idle];
    GoThen(s3, t, s4, 2);
    GoThen(s4, t, s5, 1);
    GoLast(s5, t, s6);
  }

  lemma SignalAdds(s: State, t: Tid, n: nat)
    requires t in s.pc && s.pc[t] == Idle && s.mux == None
    ensures Run(s, [Signal(t)] + Gos(t, n + 2)) == Run(At(s, t, SignalCv).(mux := Some(t), count := s.count + 1), Gos(t, n))
  {
    var s1, s2 := At(s, t, SignalWant), At(s, t, SignalAdd).(mux := Some(t));
    Then(s, Signal(t), s1, Gos(t, n + 2));
    GoThen(s1, t, s2, n + 1);
    GoThen(s2, t, At(s, t, SignalCv).(mux := Some(t), count := s.count + 1), n);
  }

  lemma {:induction false} RunConcat(s: State, a: seq<Action>, b: seq<Action>)
    requires Run(s, a).Step?
    ensures Run(s, a + b) == Run(Run(s, a).s, b)
    decreases |a|
  {
    if a == [] {
      assert a + b == b;
    } else {
      assert (a + b)[1..] == a[1..] + b;
      match Next(s, a[0])
      case Step(s') => RunConcat(s', a[1..], b);
      case Disabled => RunConcat(s, a[1..], b);
    }
  }

  /** A signal on an empty semaphore lets one sem_wait through, whoever makes the two calls. */
  lemma SignalThenWait(s: State, t: Tid, u: Tid)
    requires Open(s, t) && Open(s, u) && s.count == 0 && s.queue == []
    ensures Run(s, ([Signal(t)] + Gos(t, 5)) + ([Wait(u)] + Gos(u, 2))) == Step(s)
  {
    SignalReturns(s, t);
    RunInv(s, [Signal(t)] + Gos(t, 5));
    RunConcat(s, [Signal(t)] + Gos(t, 5), [Wait(u)] + Gos(u, 2));
    WaitReturns(s.(count := s.count + 1), u);
  }

  /** sem_signal lets the thread that has slept longest come back from sem_wait, and the two cancel out. */
  lemma SignalLetsFirstThrough(s: State, t: Tid)
    requires Open(s, t) && s.queue != [] && s.count >= 0 && s.queue[0] in s.pc && s.pc[s.queue[0]] == CondAsleep
    ensures var w := s.queue[0];
            Run(s, ([Signal(t)] + Gos(t, 6)) + Gos(w, 3)) == Step(At(s, w, Idle).(queue := s.queue[1..]))
  {
    var w := s.queue[0];
    var s1 := At(s, w, CondTest).(queue := s.queue[1..], count := s.count + 1, woken := s.woken + {w});
    assert ThreadOk(s, w) && ThreadOk(s, t);
    SignalWakes(s, t);
    RunConcat(s, [Signal(t)] + Gos(t, 6), Gos(w, 3));
    WokenReturns(s1, w);
    assert s1.woken - {w} == s.woken;
    assert At(s1, w, Idle).pc == At(s, w, Idle).pc;
  }

  lemma SignalWakes(s: State, t: Tid)
    requires Open(s, t) && s.queue != [] && s.queue[0] in s.pc && s.pc[s.queue[0]] == CondAsleep
    ensures var w := s.queue[0];
            Run(s, [Signal(t)] + Gos(t, 6))
            == Step(At(s, w, CondTest).(queue := s.queue[1..], count := s.count + 1, woken := s.woken + {w}))
  {
    OpenIs(s, t);
    var w := s.queue[0];
    SignalAdds(s, t, 4);
    var s3 := At(s, t, SignalCv).(mux := Some(t), count := s.count + 1);
    var s4 := At(s, t, SignalPop).(mux := Some(t), cvMux := Some(t), count := s.count + 1);
    var s5 := s4.(pc := s.pc[t := SignalWake(w)], queue := s.queue[1..], woken := s.woken + {w});
    GoThen(s3, t, s4, 3);
    assert s4.pc[t := SignalWake(w)] == s5.pc;
    GoThen(s4, t, s5, 2);
    WakesAndLeaves(s5, t, w);
    assert s5.pc[w := CondTest][t := Idle] == s.pc[w := CondTest];
  }

  lemma WakesAndLeaves(s: State, t: Tid, w: Tid)
    requires t in s.pc && s.pc[t] == SignalWake(w) && w in s.pc && s.pc[w] == CondAsleep
    ensures Run(s, Gos(t, 2)) == Step(s.(pc := s.pc[w := CondTest][t := Idle], mux := None, cvMux := None))
  {
    var s1 := At(At(s, w, CondTest), t, SignalLeave);
    GoThen(s, t, s1, 1);
    assert s1.pc[t := Idle] == s.pc[w := CondTest][t := Idle];
    GoLast(s1, t, s.(pc := s.pc[w := CondTest][t := Idle], mux := None, cvMux := None));
  }

  lemma WokenReturns(s: State, w: Tid)
    requires w in s.pc && s.pc[w] == CondTest && w in s.woken && s.mux == None && s.count > 0
    ensures Run(s, Gos(w, 3)) == Step(At(s, w, Idle).(count := s.count - 1, woken := s.woken - {w}))
  {
    GoThen(s, w, At(s, w, WaitWant), 2);
    GoThen(At(s, w, WaitWant), w, At(s, w, WaitTest).(mux := Some(w)), 1);
    GoLast(At(s, w, WaitTest).(mux := Some(w)), w, At(s, w, Idle).(count := s.count - 1, woken := s.woken - {w}));
  }
}
