/** What mutex_lock and mutex_unlock come to: who gets in, and what a re-entrant call does. */
module TicketOutcomes {
  import opened Seqs
  import opened TicketMutex
  import opened TicketProofs
  import opened TicketLimits

  // ------------------------------------------------------------------ getting in

  /** A thread leaves the loop exactly when every ticket before its own is done with. */
  lemma SpinOutcome(s: State, t: Tid, n: nat)
    requires Reachable(s) && t in s.pc && s.pc[t] == Spin(n)
    ensures s.served <= n && Next(s, Go(t)).Step?
    ensures Next(s, Go(t)).s.pc == s.pc[t := if n == s.served then Enter(n) else Spin(n)]
    ensures Next(s, Go(t)).s.next == s.next && Next(s, Go(t)).s.serving == s.serving && Next(s, Go(t)).s.owner == s.owner
  {
    ReachableInv(s);
    assert PcOk(s, t) && n in Tickets(s.pc[t]);
    UpMeansTurn(s, n);
    assert s.pc[t := Spin(n)] == s.pc;
  }

  /** While tickets are out and nobody holds the lock, the thread it is up to is not kept from it. */
  lemma SomebodyGetsIn(s: State) returns (t: Tid)
    requires Reachable(s) && s.served < s.issued && forall u :: u in s.pc ==> !Holds(s.pc[u])
    ensures t in s.pc && s.pc[t] == Spin(s.served)
    ensures Next(s, Go(t)).Step? && t in Next(s, Go(t)).s.pc && Next(s, Go(t)).s.pc[t] == Enter(s.served)
  {
    ReachableInv(s);
    assert NumberOk(s, s.served);
    t :| t in s.pc && s.served in Tickets(s.pc[t]);
    assert !Holds(s.pc[t]);
    SpinOutcome(s, t, s.served);
  }

  // ------------------------------------------------------------------ one thread alone

  /** Nobody has a ticket or a name in owner_tid. */
  ghost predicate Unused(s: State, t: Tid) {
    && Inv(s) && FewThreads(s) && s.issued == s.served && s.owner == None && t in s.pc && s.pc[t] == Out
    && forall u :: u in s.pc ==> !Named(s.pc[u])
  }

  /** The state in which t holds the mutex with the next ticket. */
  function Locked(s: State, t: Tid): State {
    s.(next := (s.next + 1) % WORDS, issued := s.issued + 1, owner := Some(t), pc := s.pc[t := In(s.issued)],
       entries := s.entries + [s.issued], late := false)
  }

  function Unlocked(s: State, t: Tid): State {
    s.(next := (s.next + 1) % WORDS, issued := s.issued + 1, serving := (s.serving + 1) % WORDS, served := s.served + 1,
       entries := s.entries + [s.issued], late := false)
  }

  /** mutex_lock of an unused mutex returns with it, on one ticket. */
  lemma LockReturns(s: State, t: Tid)
    requires Unused(s, t)
    ensures Run(s, [Lock(t), Go(t), Go(t), Go(t), Go(t)]) == Step(Locked(s, t))
  {
    var n := s.issued;
    var s1, s2 := At(s, t, Check), At(s, t, Take);
    var s3 := At(s, t, Spin(n)).(next := (s.next + 1) % WORDS, issued := n + 1);
    OneMore(s, Lock(t), s1, [Go(t), Go(t), Go(t), Go(t)]);
    OneMore(s1, Go(t), s2, [Go(t), Go(t), Go(t)]);
    OneMore(s2, Go(t), s3, [Go(t), Go(t)]);
    EntersAtOnce(s, t, s3);
  }

  lemma EntersAtOnce(s: State, t: Tid, s3: State)
    requires Unused(s, t) && s3 == At(s, t, Spin(s.issued)).(next := (s.next + 1) % WORDS, issued := s.issued + 1)
    ensures Run(s3, [Go(t), Go(t)]) == Step(Locked(s, t))
  {
    var n := s.issued;
    var s4 := s3.(pc := s.pc[t := Enter(n)], entries := s.entries + [n]);
    OneMore(s3, Go(t), s4, [Go(t)]);
    assert s4.pc[t := In(n)] == Locked(s, t).pc;
    OneMore(s4, Go(t), Locked(s, t), []);
  }

  lemma OneMore(s: State, a: Action, s': State, rest: seq<Action>)
    requires Next(s, a) == Step(s')
    ensures Run(s, [a] + rest) == Run(s', rest)
  {
    assert ([a] + rest)[1..] == rest;
  }

  /** mutex_unlock leaves it unused again, unless the tickets have wrapped under it, in which case it fails its caller. */
  lemma UnlockReturnsIff(s: State, t: Tid)
    requires Unused(s, t)
    ensures var acts := [Unlock(t), Go(t), Go(t), Go(t), Go(t), Go(t), Go(t)];
            if s.serving + 1 < WORDS then Run(Locked(s, t), acts) == Step(Unlocked(s, t))
            else Run(Locked(s, t), acts) == Panic(NotLocked)
  {
    var l, n := Locked(s, t), s.issued;
    OneMore(l, Unlock(t), At(l, t, UnlockOwner(n)), [Go(t), Go(t), Go(t), Go(t), Go(t), Go(t)]);
    OneMore(At(l, t, UnlockOwner(n)), Go(t), At(l, t, UnlockServing(n)), [Go(t), Go(t), Go(t), Go(t), Go(t)]);
    OneMore(At(l, t, UnlockServing(n)), Go(t), At(l, t, UnlockNext(n, s.serving)), [Go(t), Go(t), Go(t), Go(t)]);
    var rest := [Go(t), Go(t), Go(t)];
    assert ([Go(t)] + rest)[0] == Go(t) && [Go(t), Go(t), Go(t), Go(t)] == [Go(t)] + rest;
    if s.serving + 1 < WORDS {
      OneMore(At(l, t, UnlockNext(n, s.serving)), Go(t), At(l, t, UnlockLoad(n)), rest);
      ServesNext(s, t);
    }
  }

  lemma ServesNext(s: State, t: Tid)
    requires Unused(s, t)
    ensures Run(At(Locked(s, t), t, UnlockLoad(s.issued)), [Go(t), Go(t), Go(t)]) == Step(Unlocked(s, t))
  {
    var l, n := Locked(s, t), s.issued;
    var l2 := At(l, t, UnlockStore(n, s.serving));
    var l3 := Unlocked(s, t).(owner := Some(t), pc := s.pc[t := UnlockClear]);
    OneMore(At(l, t, UnlockLoad(n)), Go(t), l2, [Go(t), Go(t)]);
    OneMore(l2, Go(t), l3, [Go(t)]);
    ClearsLast(s, t, l3);
    OneMore(l3, Go(t), Unlocked(s, t), []);
  }

  lemma ClearsLast(s: State, t: Tid, l3: State)
    requires Unused(s, t) && l3 == Unlocked(s, t).(owner := Some(t), pc := s.pc[t := UnlockClear])
    ensures Next(l3, Go(t)) == Step(Unlocked(s, t))
  {
    forall u | u in l3.pc
      ensures !Named(l3.pc[u])
    {
      assert u != t ==> l3.pc[u] == s.pc[u];
    }
    assert l3.pc[t := Out] == s.pc;
  }

  // ------------------------------------------------------------------ re-entrant calls

  /** t holds the lock. */
  ghost predicate Inside(s: State, t: Tid) {
    Inv(s) && FewThreads(s) && t in s.pc && s.pc[t].In?
  }

  /** mutex_lock by a holder who finds its tid returns at once: no ticket is taken and nothing changes. */
  lemma ReentrantLockReturns(s: State, t: Tid)
    requires Inside(s, t) && !s.late
    ensures Run(s, [Lock(t), Go(t)]) == Step(s)
  {
    assert PcOk(s, t);
    var s1 := At(s, t, Recheck(s.pc[t].n));
    OneMore(s, Lock(t), s1, [Go(t)]);
    assert s1.pc[t := In(s.pc[t].n)] == s.pc;
    OneMore(s1, Go(t), s, []);
  }

  /** A holder waits for its own unlock. */
  ghost predicate WaitsForItself(s: State, t: Tid) {
    t in s.pc && s.pc[t].Stuck?
  }

  /** Nothing any thread does brings it out of the loop, and nobody gets in after it. */
  lemma {:induction false} StuckForEver(s: State, acts: seq<Action>, t: Tid)
    requires Inv(s) && FewThreads(s) && WaitsForItself(s, t) && Run(s, acts).Step?
    ensures WaitsForItself(Run(s, acts).s, t) && Run(s, acts).s.served == s.served
    ensures forall u :: u in Run(s, acts).s.pc && u != t ==> !Holds(Run(s, acts).s.pc[u])
    decreases |acts|
  {
    if acts == [] {
      forall u | u in s.pc && u != t
        ensures !Holds(s.pc[u])
      {
        if Holds(s.pc[u]) {
          Alone(s, t, u);
        }
      }
    } else {
      match Next(s, acts[0])
      case Step(s') =>
        StepInv(s, acts[0]);
        StuckStep(s, acts[0], t);
        StuckForEver(s', acts[1..], t);
      case Disabled => StuckForEver(s, acts[1..], t);
    }
  }

  lemma StuckStep(s: State, a: Action, t: Tid)
    requires Inv(s) && FewThreads(s) && WaitsForItself(s, t) && Next(s, a).Step?
    ensures WaitsForItself(Next(s, a).s, t) && Next(s, a).s.served == s.served
  {
    if a.t == t {
      StuckStays(s, t);
    } else if s.pc[a.t].UnlockStore? {
      Alone(s, a.t, t);
    }
  }

  /** The run brings t back from mutex_lock. */
  ghost predicate ComesBack(s: State, t: Tid, acts: seq<Action>) {
    Run(s, acts).Step? && t in Run(s, acts).s.pc && Run(s, acts).s.pc[t].In?
  }

  /** A re-entrant mutex_lock ends if and only if no other unlock has overwritten owner_tid: otherwise the holder takes a
      second ticket, and neither it nor anybody else gets in ever again. */
  lemma ReentryReturnsIff(s: State, t: Tid)
    requires Inside(s, t)
    ensures var o := Run(s, [Lock(t), Go(t)]);
            && o.Step?
            && ((exists acts :: ComesBack(o.s, t, acts)) <==> !s.late)
  {
    assert PcOk(s, t);
    var n := s.pc[t].n;
    var s1 := At(s, t, Recheck(n));
    if !s.late {
      ReentrantLockReturns(s, t);
      assert Run(s, []) == Step(s) && ComesBack(s, t, []);
    } else {
      var s2 := At(s, t, Retake(n));
      OneMore(s, Lock(t), s1, [Go(t)]);
      OneMore(s1, Go(t), s2, []);
      StepInv(s, Lock(t));
      StepInv(s1, Go(t));
      forall acts
        ensures !ComesBack(s2, t, acts)
      {
        if Run(s2, acts).Step? {
          RetakeNeverBack(s2, acts, t);
        }
      }
    }
  }

  lemma RetakeStep(s: State, a: Action, t: Tid)
    requires t in s.pc && s.pc[t].Retake? && Next(s, a).Step?
    ensures t in Next(s, a).s.pc && if a.t == t then Next(s, a).s.pc[t].Stuck? else Next(s, a).s.pc[t] == s.pc[t]
  {
  }

  lemma {:induction false} RetakeNeverBack(s: State, acts: seq<Action>, t: Tid)
    requires Inv(s) && FewThreads(s) && t in s.pc && s.pc[t].Retake? && Run(s, acts).Step?
    ensures t in Run(s, acts).s.pc && !Run(s, acts).s.pc[t].In?
    decreases |acts|
  {
    if acts != [] {
      match Next(s, acts[0])
      case Step(s') =>
        StepInv(s, acts[0]);
        RetakeStep(s, acts[0], t);
        if acts[0].t == t {
          StuckForEver(s', acts[1..], t);
        } else {
          RetakeNeverBack(s', acts[1..], t);
        }
      case Disabled => RetakeNeverBack(s, acts[1..], t);
    }
  }
}
