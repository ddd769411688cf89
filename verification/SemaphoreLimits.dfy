/** Where sem_signal does not return.  _cond_signal calls make_runnable until it succeeds, counting on the thread it
    took off the queue to deschedule itself soon.  But should_wakeup is set before the loop, and a thread that reads
    it first never deschedules itself: it goes back for the semaphore's mutex, which the signaller holds. */
module SemaphoreLimits {
  import opened Seqs
  import opened Semaphore

  /** The signaller t waits for u to deschedule itself; u has been told to wake up and has not been asleep. */
  ghost predicate Jammed(s: State, t: Tid, u: Tid) {
    && t in s.pc && s.pc[t] == SignalWake(u) && u in s.pc && (s.pc[u].CondTest? || s.pc[u].WaitWant?)
  }

  lemma StaysJammed(s: State, a: Action, t: Tid, u: Tid)
    requires Inv(s) && Jammed(s, t, u) && Next(s, a).Step?
    ensures Jammed(Next(s, a).s, t, u)
  {
    assert ThreadOk(s, t) && ThreadOk(s, a.t);
  }

  /** From there no run of any threads brings the signaller any further, or frees the semaphore's mutex. */
  lemma {:induction false} JammedForever(s: State, acts: seq<Action>, t: Tid, u: Tid)
    requires Inv(s) && Jammed(s, t, u) && Run(s, acts).Step?
    ensures Jammed(Run(s, acts).s, t, u) && Run(s, acts).s.mux == Some(t)
    decreases |acts|
  {
    assert ThreadOk(s, t);
    if acts != [] {
      match Next(s, acts[0])
      case Step(s') =>
        StepInv(s, acts[0]);
        StaysJammed(s, acts[0], t, u);
        JammedForever(s', acts[1..], t, u);
      case Disabled => JammedForever(s, acts[1..], t, u);
    }
  }

  /** The run ends with t back from sem_signal. */
  ghost predicate Returns(s: State, t: Tid, acts: seq<Action>) {
    Run(s, acts).Step? && t in Run(s, acts).s.pc && Run(s, acts).s.pc[t] == Idle
  }

  /** Once a thread is off the queue, sem_signal can still return exactly when that thread is asleep. */
  lemma SignalReturnsIff(s: State, t: Tid)
    requires Inv(s) && t in s.pc && s.pc[t].SignalWake?
    ensures s.pc[t].u in s.pc && ((exists acts :: Returns(s, t, acts)) <==> s.pc[s.pc[t].u] == CondAsleep)
  {
    var u := s.pc[t].u;
    assert ThreadOk(s, t) && ThreadOk(s, u);
    if s.pc[u] == CondAsleep {
      var acts := [Go(t), Go(t)];
      var s1 := Next(s, acts[0]).s;
      assert acts[1..] == [Go(t)] && [Go(t)][1..] == [];
      assert Run(s, acts) == Run(s1, [Go(t)]) == Next(s1, Go(t));
      assert Returns(s, t, acts);
    } else {
      forall acts
        ensures !Returns(s, t, acts)
      {
        if Run(s, acts).Step? {
          JammedForever(s, acts, t, u);
        }
      }
    }
  }

  /** So it is settled when the node is taken off the queue: was its thread asleep? */
  lemma PopSettles(s: State, t: Tid)
    requires Inv(s) && t in s.pc && s.pc[t].SignalPop? && s.queue != []
    ensures s.queue[0] in s.pc
    ensures (exists acts :: Returns(Pop(s, t), t, acts)) <==> s.pc[s.queue[0]] == CondAsleep
  {
    assert ThreadOk(s, t) && ThreadOk(s, s.queue[0]);
    PopKeeps(s, t);
    SignalReturnsIff(Pop(s, t), t);
  }

  /** A state of two threads. */
  function Two(count: nat, mux: Option<Tid>, cvMux: Option<Tid>, queue: seq<Tid>, woken: set<Tid>, one: Pc, two: Pc): State {
    State(count, mux, cvMux, queue, woken, map[1 := one, 2 := two])
  }

  lemma OneStep(s: State, a: Action, s': State, rest: seq<Action>)
    requires Next(s, a) == Step(s')
    ensures Run(s, [a] + rest) == Run(s', rest)
  {
    assert ([a] + rest)[1..] == rest;
  }

  /** 1 waits, and has the semaphore's mutex ... */
  lemma Waits(rest: seq<Action>)
    ensures Run(Initial(0, {1, 2}), [Wait(1)] + ([Go(1)] + ([Go(1)] + rest))) == Run(Two(0, Some(1), None, [], {}, CondWant, Idle), rest)
  {
    var s0, s1 := Two(0, None, None, [], {}, Idle, Idle), Two(0, None, None, [], {}, WaitWant, Idle);
    var s2, s3 := Two(0, Some(1), None, [], {}, WaitTest, Idle), Two(0, Some(1), None, [], {}, CondWant, Idle);
    assert Initial(0, {1, 2}) == s0;
    assert s1.pc == s0.pc[1 := WaitWant] && s2.pc == s1.pc[1 := WaitTest] && s3.pc == s2.pc[1 := CondWant];
    OneStep(s0, Wait(1), s1, [Go(1)] + ([Go(1)] + rest));
    OneStep(s1, Go(1), s2, [Go(1)] + rest);
    OneStep(s2, Go(1), s3, rest);
  }

  /** ... puts its node on the queue, frees both mutexes and has still to read should_wakeup; ... */
  lemma Queues(rest: seq<Action>)
    ensures Run(Two(0, Some(1), None, [], {}, CondWant, Idle), [Go(1)] + ([Go(1)] + ([Go(1)] + rest)))
            == Run(Two(0, None, None, [1], {}, CondTest, Idle), rest)
  {
    var s3, s4 := Two(0, Some(1), None, [], {}, CondWant, Idle), Two(0, Some(1), Some(1), [], {}, CondEnqueue, Idle);
    var s5, s6 := Two(0, Some(1), Some(1), [1], {}, CondLeave, Idle), Two(0, None, None, [1], {}, CondTest, Idle);
    assert [] + [1] == [1];
    assert s4.pc == s3.pc[1 := CondEnqueue] && s5.pc == s4.pc[1 := CondLeave] && s6.pc == s5.pc[1 := CondTest];
    OneStep(s3, Go(1), s4, [Go(1)] + ([Go(1)] + rest));
    OneStep(s4, Go(1), s5, [Go(1)] + rest);
    OneStep(s5, Go(1), s6, rest);
  }

  /** ... 2 signals ... */
  lemma Signals(rest: seq<Action>)
    ensures Run(Two(0, None, None, [1], {}, CondTest, Idle), [Signal(2)] + ([Go(2)] + ([Go(2)] + rest)))
            == Run(Two(1, Some(2), None, [1], {}, CondTest, SignalCv), rest)
  {
    var s6, s7 := Two(0, None, None, [1], {}, CondTest, Idle), Two(0, None, None, [1], {}, CondTest, SignalWant);
    var s8, s9 := Two(0, Some(2), None, [1], {}, CondTest, SignalAdd), Two(1, Some(2), None, [1], {}, CondTest, SignalCv);
    assert s7.pc == s6.pc[2 := SignalWant] && s8.pc == s7.pc[2 := SignalAdd] && s9.pc == s8.pc[2 := SignalCv];
    OneStep(s6, Signal(2), s7, [Go(2)] + ([Go(2)] + rest));
    OneStep(s7, Go(2), s8, [Go(2)] + rest);
    OneStep(s8, Go(2), s9, rest);
  }

  /** ... and takes the node off the queue, and 1 reads the flag. */
  lemma Pops()
    ensures Run(Two(1, Some(2), None, [1], {}, CondTest, SignalCv), [Go(2)] + ([Go(2)] + ([Go(1)] + [])))
            == Step(Two(1, Some(2), Some(2), [], {1}, WaitWant, SignalWake(1)))
  {
    var s9, s10 := Two(1, Some(2), None, [1], {}, CondTest, SignalCv), Two(1, Some(2), Some(2), [1], {}, CondTest, SignalPop);
    var s11, s12 := Two(1, Some(2), Some(2), [], {1}, CondTest, SignalWake(1)), Two(1, Some(2), Some(2), [], {1}, WaitWant, SignalWake(1));
    assert s10.pc == s9.pc[2 := SignalPop] && s11.pc == s10.pc[2 := SignalWake(1)] && s12.pc == s11.pc[1 := WaitWant];
    OneStep(s9, Go(2), s10, [Go(2)] + ([Go(1)] + []));
    OneStep(s10, Go(2), s11, [Go(1)] + []);
    OneStep(s11, Go(1), s12, []);
  }

  lemma HangRun() returns (acts: seq<Action>)
    ensures Run(Initial(0, {1, 2}), acts) == Step(Two(1, Some(2), Some(2), [], {1}, WaitWant, SignalWake(1)))
  {
    acts := HangFromQueue();
    Waits(acts);
    acts := [Wait(1)] + ([Go(1)] + ([Go(1)] + acts));
  }

  lemma HangFromQueue() returns (acts: seq<Action>)
    ensures Run(Two(0, Some(1), None, [], {}, CondWant, Idle), acts) == Step(Two(1, Some(2), Some(2), [], {1}, WaitWant, SignalWake(1)))
  {
    acts := HangFromSignal();
    Queues(acts);
    acts := [Go(1)] + ([Go(1)] + ([Go(1)] + acts));
  }

  lemma HangFromSignal() returns (acts: seq<Action>)
    ensures Run(Two(0, None, None, [1], {}, CondTest, Idle), acts) == Step(Two(1, Some(2), Some(2), [], {1}, WaitWant, SignalWake(1)))
  {
    acts := [Go(2)] + ([Go(2)] + ([Go(1)] + []));
    Pops();
    Signals(acts);
    acts := [Signal(2)] + ([Go(2)] + ([Go(2)] + acts));
  }

  /** A run of two threads from a new semaphore after which the second never returns from sem_signal. */
  lemma SignalHangs() returns (acts: seq<Action>)
    ensures Run(Initial(0, {1, 2}), acts).Step?
    ensures var s := Run(Initial(0, {1, 2}), acts).s; Jammed(s, 2, 1) && forall more :: !Returns(s, 2, more)
  {
    acts := HangRun();
    InitialInv(0, {1, 2});
    RunInv(Initial(0, {1, 2}), acts);
    SignalReturnsIff(Run(Initial(0, {1, 2}), acts).s, 2);
  }
}
