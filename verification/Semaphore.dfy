/** The semaphore over a condition variable (p3/user/libthread/sem.c, cond.c).  Both mutexes are modelled by
    their owner; code under a mutex is one step, and so is each hand-over between the two mutexes.  A thread
    may take the semaphore's mutex ahead of one that was woken. */
module Semaphore {
  import opened Seqs

  type Tid = nat

  /** Where a thread is.  In cond_wait `Asleep` comes after both mutexes are free. */
  datatype Pc =
    | Idle
    | WaitWant | WaitTest             // sem_wait: lock mux, test the count
    | CondWant | CondEnqueue          // cond_wait: lock cv->mp, put the node on the queue
    | CondLeave                       // unlock cv->mp, then mux
    | CondTest | CondAsleep           // test should_wakeup, descheduled
    | SignalWant | SignalAdd          // sem_signal: lock mux, ++count
    | SignalCv | SignalPop            // cond_signal: lock cv->mp, take the front node
    | SignalWake(u: Tid)              // make_runnable until it succeeds
    | SignalLeave                     // unlock cv->mp, then mux

  /** `woken` has the threads whose should_wakeup is set and which have not tested the count since. */
  datatype State = State(count: int, mux: Option<Tid>, cvMux: Option<Tid>, queue: seq<Tid>, woken: set<Tid>,
                         pc: map<Tid, Pc>)

  /** NegativeCount: the affirm in sem_wait's loop fails. */
  datatype Outcome = Step(s: State) | Disabled | NegativeCount

  datatype Action = Wait(t: Tid) | Signal(t: Tid) | Go(t: Tid)

  function At(s: State, t: Tid, pc: Pc): State {
    s.(pc := s.pc[t := pc])
  }

  /** sem_wait with mux held: take one, or go to sleep. */
  function Test(s: State, t: Tid): Outcome {
    var s1 := s.(woken := s.woken - {t});
    if s.count > 0 then Step(At(s1, t, Idle).(count := s.count - 1, mux := None))
    else if s.count != 0 then NegativeCount
    else Step(At(s1, t, CondWant))
  }

  /** _cond_signal up to the loop. */
  function Pop(s: State, t: Tid): State {
    if s.queue == [] then At(s, t, SignalLeave)
    else At(s, t, SignalWake(s.queue[0])).(queue := s.queue[1..], woken := s.woken + {s.queue[0]})
  }

  function GoStep(s: State, t: Tid): Outcome
    requires t in s.pc
  {
    match s.pc[t]
    case Idle => Disabled
    case WaitWant => if s.mux == None then Step(At(s, t, WaitTest).(mux := Some(t))) else Disabled
    case WaitTest => Test(s, t)
    case CondWant => if s.cvMux == None then Step(At(s, t, CondEnqueue).(cvMux := Some(t))) else Disabled
    case CondEnqueue => Step(At(s, t, CondLeave).(queue := s.queue + [t]))
    case CondLeave => Step(At(s, t, CondTest).(cvMux := None, mux := None))
    case CondTest => Step(At(s, t, if t in s.woken then WaitWant else CondAsleep))
    case CondAsleep => Disabled
    case SignalWant => if s.mux == None then Step(At(s, t, SignalAdd).(mux := Some(t))) else Disabled
    case SignalAdd => Step(At(s, t, SignalCv).(count := s.count + 1))
    case SignalCv => if s.cvMux == None then Step(At(s, t, SignalPop).(cvMux := Some(t))) else Disabled
    case SignalPop => Step(Pop(s, t))
    case SignalWake(u) =>
      // make_runnable fails while u has not descheduled itself; a woken thread goes back to its test
      if u in s.pc && s.pc[u] == CondAsleep then Step(At(At(s, u, CondTest), t, SignalLeave)) else Step(s)
    case SignalLeave => Step(At(s, t, Idle).(cvMux := None, mux := None))
  }

  function Next(s: State, a: Action): Outcome {
    if a.t !in s.pc then Disabled
    else
      match a
      case Wait(t) => if s.pc[t] == Idle then Step(At(s, t, WaitWant)) else Disabled
      case Signal(t) => if s.pc[t] == Idle then Step(At(s, t, SignalWant)) else Disabled
      case Go(t) => GoStep(s, t)
  }

  function Run(s: State, acts: seq<Action>): Outcome
    decreases |acts|
  {
    if acts == [] then Step(s)
    else
      match Next(s, acts[0])
      case Step(s') => Run(s', acts[1..])
      case Disabled => Run(s, acts[1..])
      case NegativeCount => NegativeCount
  }

  function Initial(count: int, ts: set<Tid>): State {
    State(count, None, None, [], {}, map t | t in ts :: Idle)
  }

  // ------------------------------------------------------------------ invariant

  /** The program counters inside the semaphore's mutex. */
  predicate HasMux(pc: Pc) {
    pc.WaitTest? || pc.CondWant? || pc.CondEnqueue? || pc.CondLeave?
    || pc.SignalAdd? || pc.SignalCv? || pc.SignalPop? || pc.SignalWake? || pc.SignalLeave?
  }

  predicate HasCvMux(pc: Pc) {
    pc.CondEnqueue? || pc.CondLeave? || pc.SignalPop? || pc.SignalWake? || pc.SignalLeave?
  }

  /** Between the increment and the pop of sem_signal, one signal has not reached the queue. */
  ghost function MidSignal(s: State): nat {
    if s.mux.Some? && s.mux.value in s.pc && (s.pc[s.mux.value].SignalCv? || s.pc[s.mux.value].SignalPop?) then 1 else 0
  }

  ghost predicate ThreadOk(s: State, t: Tid) {
    && (t in s.pc && HasMux(s.pc[t]) <==> s.mux == Some(t))
    && (t in s.pc && HasCvMux(s.pc[t]) <==> s.cvMux == Some(t))
    && (t in s.queue ==> t in s.pc && t !in s.woken && (s.pc[t].CondLeave? || s.pc[t].CondTest? || s.pc[t].CondAsleep?))
    && (t in s.pc && (s.pc[t].CondWant? || s.pc[t].CondEnqueue?) ==> s.count == 0 && t !in s.woken) && (t in s.woken ==> t in s.pc && (s.pc[t].CondTest? || s.pc[t].CondAsleep? || s.pc[t].WaitWant? || s.pc[t].WaitTest?))
    && (t in s.pc && (s.pc[t].CondLeave? || s.pc[t].CondTest?) ==> t in s.queue || t in s.woken)
    && (t in s.pc && s.pc[t].CondAsleep? ==> t in s.queue || (t in s.woken && WakerOf(s, t)))
    && (t in s.pc && s.pc[t].SignalWake? ==> s.pc[t].u in s.woken)
  }

  /** The signaller that took t's node off the queue is still waking it. */
  ghost predicate WakerOf(s: State, t: Tid) {
    s.mux.Some? && s.mux.value in s.pc && s.pc[s.mux.value] == SignalWake(t)
  }

  ghost predicate Inv(s: State) {
    && NoDup(s.queue)
    && (forall t {:trigger ThreadOk(s, t)} :: ThreadOk(s, t))
    && (s.queue != [] ==> s.count <= |s.woken| + MidSignal(s))
  }

  lemma TestKeeps(s: State, t: Tid)
    requires Inv(s) && t in s.pc && s.pc[t].WaitTest? && Test(s, t).Step?
    ensures Inv(Test(s, t).s)
  {
    var s' := Test(s, t).s;
    assert ThreadOk(s, t);
    forall u
      ensures ThreadOk(s', u)
    {
      assert ThreadOk(s, u);
    }
  }

  lemma PopKeeps(s: State, t: Tid)
    requires Inv(s) && t in s.pc && s.pc[t].SignalPop?
    ensures Inv(Pop(s, t))
  {
    var s' := Pop(s, t);
    assert ThreadOk(s, t);
    if s.queue != [] {
      assert s.queue == [s.queue[0]] + s.queue[1..];
      assert ThreadOk(s, s.queue[0]);
    }
    forall u
      ensures ThreadOk(s', u)
    {
      assert ThreadOk(s, u);
    }
  }

  lemma EnqueueKeeps(s: State, t: Tid)
    requires Inv(s) && t in s.pc && s.pc[t].CondEnqueue?
    ensures Inv(GoStep(s, t).s)
  {
    var s' := GoStep(s, t).s;
    assert ThreadOk(s, t);
    NoDupAppend(s.queue, t);
    forall u
      ensures ThreadOk(s', u)
    {
      assert ThreadOk(s, u);
    }
  }

  lemma WakeKeeps(s: State, t: Tid)
    requires Inv(s) && t in s.pc && s.pc[t].SignalWake?
    ensures Inv(GoStep(s, t).s)
  {
    var s', u := GoStep(s, t).s, s.pc[t].u;
    assert ThreadOk(s, t) && ThreadOk(s, u);
    forall v
      ensures ThreadOk(s', v)
    {
      assert ThreadOk(s, v);
    }
  }

  lemma OtherKeeps(s: State, t: Tid)
    requires Inv(s) && t in s.pc && GoStep(s, t).Step?
    requires !s.pc[t].WaitTest? && !s.pc[t].SignalPop? && !s.pc[t].CondEnqueue? && !s.pc[t].SignalWake?
    ensures Inv(GoStep(s, t).s)
  {
    var s' := GoStep(s, t).s;
    assert ThreadOk(s, t);
    forall u
      ensures ThreadOk(s', u)
    {
      assert ThreadOk(s, u);
    }
  }

  lemma CallKeeps(s: State, a: Action)
    requires Inv(s) && a.t in s.pc && !a.Go? && Next(s, a).Step?
    ensures Inv(Next(s, a).s)
  {
    var s' := Next(s, a).s;
    assert ThreadOk(s, a.t);
    forall u
      ensures ThreadOk(s', u)
    {
      assert ThreadOk(s, u);
    }
  }

  lemma StepInv(s: State, a: Action)
    requires Inv(s) && Next(s, a).Step?
    ensures Inv(Next(s, a).s)
  {
    match a
    case Go(t) =>
      match s.pc[t] {
        case WaitTest => TestKeeps(s, t);
        case SignalPop => PopKeeps(s, t);
        case CondEnqueue => EnqueueKeeps(s, t);
        case SignalWake(_) => WakeKeeps(s, t);
        case _ => OtherKeeps(s, t);
      }
    case _ => CallKeeps(s, a);
  }

  // ------------------------------------------------------------------ over runs

  /** Every step of a run keeps the invariant; the count goes below 0 only if it started there. */
  lemma {:induction false} RunInv(s: State, acts: seq<Action>)
    requires Inv(s) && Run(s, acts).Step?
    ensures Inv(Run(s, acts).s)
    ensures s.count >= 0 ==> Run(s, acts).s.count >= 0
    decreases |acts|
  {
    if acts != [] {
      match Next(s, acts[0])
      case Step(s') =>
        StepInv(s, acts[0]);
        RunInv(s', acts[1..]);
      case Disabled => RunInv(s, acts[1..]);
    }
  }

  lemma InitialInv(count: int, ts: set<Tid>)
    ensures Inv(Initial(count, ts))
  {
    forall t
      ensures ThreadOk(Initial(count, ts), t)
    {
    }
  }

  /** From a count that is not negative no affirm fails. */
  lemma {:induction false} NeverNegative(s: State, acts: seq<Action>)
    requires s.count >= 0
    ensures Run(s, acts) != NegativeCount
    decreases |acts|
  {
    if acts != [] {
      match Next(s, acts[0])
      case Step(s') => NeverNegative(s', acts[1..]);
      case Disabled => NeverNegative(s, acts[1..]);
      case NegativeCount =>
    }
  }

  lemma {:induction false} RunStepOrNegative(s: State, acts: seq<Action>)
    ensures Run(s, acts).Step? || Run(s, acts).NegativeCount?
    decreases |acts|
  {
    if acts != [] {
      match Next(s, acts[0])
      case Step(s') => RunStepOrNegative(s', acts[1..]);
      case Disabled => RunStepOrNegative(s, acts[1..]);
      case NegativeCount =>
    }
  }

  /** No wake-up is lost: whenever nobody holds the semaphore's mutex and a thread waits on the queue, each
      unit of the count has a woken thread on its way to test it, however many threads barge in. */
  lemma NoLostWakeup(count: nat, ts: set<Tid>, acts: seq<Action>)
    requires Run(Initial(count, ts), acts).Step?
    ensures var s := Run(Initial(count, ts), acts).s; s.mux == None && s.queue != [] ==> s.count <= |s.woken|
  {
    InitialInv(count, ts);
    RunInv(Initial(count, ts), acts);
  }

  /** A thread that sleeps is on the queue, or the signaller that took it off is still waking it. */
  lemma SleeperIsQueued(count: nat, ts: set<Tid>, acts: seq<Action>, t: Tid)
    requires Run(Initial(count, ts), acts).Step?
    ensures var s := Run(Initial(count, ts), acts).s;
            t in s.pc && s.pc[t].CondAsleep? ==> t in s.queue || (t in s.woken && WakerOf(s, t))
  {
    InitialInv(count, ts);
    RunInv(Initial(count, ts), acts);
    assert ThreadOk(Run(Initial(count, ts), acts).s, t);
  }
}
