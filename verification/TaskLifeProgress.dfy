/** fork, wait and vanish always come to an end: nobody deadlocks on a lock, and no call goes round for ever. */
module TaskLifeProgress {
  import opened Seqs
  import opened TaskLife
  import opened TaskLifeInvariant
  import opened TaskLifeTheorems
  import opened TaskLifeOutcomes
  import Wait = TaskLifeWait

  /** Actions one after the other, none of them held up. */
  function Perform(s: State, acts: seq<Action>): Outcome
    decreases |acts|
  {
    if acts == [] then Step(s)
    else
      match Next(s, acts[0])
      case Step(s') => Perform(s', acts[1..])
      case o => o
  }

  ghost predicate OnlyGo(acts: seq<Action>) {
    forall i :: 0 <= i < |acts| ==> acts[i].Go?
  }

  // ------------------------------------------------------------------ every step brings a call nearer to its end

  /** The steps a call at pc has left at most. */
  function Left(pc: Pc): nat {
    match pc
    case Idle => 0
    case Gone => 0
    case ForkWantMux(_, _) => 3
    case ForkHasMux(_, _) => 2
    case ForkLinked(_, _) => 1
    case WaitWantMux => 4
    case WaitHasMux => 3
    case WaitBlocked => 2
    case WaitCollect => 1
    case VanWantTree => 10
    case VanWantMux => 9
    case VanHasBoth => 8
    case VanFree => 7
    case VanWantInit => 6
    case VanHasInit => 5
    case VanWantTree2 => 4
    case VanHasTree2 => 3
    case VanWantTarget(_, _) => 2
    case VanHasTarget(_, _) => 1
  }

  function LeftOf(s: State, t: Tid): nat {
    if t in s.threads then Left(s.threads[t].pc) else 0
  }

  /** The steps that threads below n have left. */
  function WorkBelow(s: State, n: nat): nat {
    if n == 0 then 0 else WorkBelow(s, n - 1) + LeftOf(s, n - 1)
  }

  function Work(s: State): nat {
    WorkBelow(s, s.nextTid)
  }

  lemma {:induction false} WorkFallsBelow(s: State, s': State, t: Tid, n: nat)
    requires forall u :: LeftOf(s', u) <= LeftOf(s, u)
    requires LeftOf(s', t) < LeftOf(s, t)
    ensures WorkBelow(s', n) + (if t < n then 1 else 0) <= WorkBelow(s, n)
  {
    if n > 0 {
      WorkFallsBelow(s, s', t, n - 1);
    }
  }

  /** t moved on and nobody fell back. */
  ghost predicate Nearer(s: State, s': State, t: Tid) {
    && (forall u :: LeftOf(s', u) <= LeftOf(s, u)) && LeftOf(s', t) < LeftOf(s, t) && s'.nextTid == s.nextTid
  }

  lemma ForkNearer(s: State, t: Tid)
    requires t in s.threads && s.threads[t].task in s.tasks && ForkStep(s, t).Step?
    ensures Nearer(s, ForkStep(s, t).s, t)
  {
  }

  lemma WaitNearer(s: State, t: Tid)
    requires t in s.threads && s.threads[t].task in s.tasks && WaitStep(s, t).Step?
    ensures Nearer(s, WaitStep(s, t).s, t)
  {
  }

  ghost predicate BlockedInWait(s: State) {
    forall u :: u in s.threads && s.threads[u].status == Blocked ==> s.threads[u].pc == WaitBlocked
  }

  lemma VanishNearer(s: State, t: Tid)
    requires t in s.threads && s.threads[t].task in s.tasks && s.threads[t].status == Ready && BlockedInWait(s)
    requires VanishStep(s, t).Step?
    ensures Nearer(s, VanishStep(s, t).s, t)
  {
    match s.threads[t].pc
    case VanFree => SiblingsNearer(s, t);
    case VanHasInit => HandOverNearer(s, t);
    case _ =>
  }

  lemma SiblingsNearer(s: State, t: Tid)
    requires t in s.threads && s.threads[t].task in s.tasks && s.threads[t].pc == VanFree && FreeSiblings(s, t).Step?
    ensures Nearer(s, FreeSiblings(s, t).s, t)
  {
  }

  lemma HandOverNearer(s: State, t: Tid)
    requires t in s.threads && s.threads[t].task in s.tasks && s.threads[t].status == Ready && BlockedInWait(s)
    requires s.threads[t].pc == VanHasInit && HandOver(s, t).Step?
    ensures Nearer(s, HandOver(s, t).s, t)
  {
    var w, threads := s.tasks[s.init].waiting, HandOver(s, t).s.threads;
    assert w != [] ==> threads == WithPc(s, t, VanWantTree2).threads[w[0] := threads[w[0]]];
  }

  lemma ReportNearer(s: State, t: Tid)
    requires t in s.threads && s.threads[t].task in s.tasks && s.threads[t].status == Ready && BlockedInWait(s)
    requires ReportStep(s, t).Step?
    ensures Nearer(s, ReportStep(s, t).s, t)
  {
  }

  lemma GoNearer(s: State, t: Tid)
    requires Inv(s) && Next(s, Go(t)).Step?
    ensures Nearer(s, Next(s, Go(t)).s, t) && Work(Next(s, Go(t)).s) < Work(s)
  {
    var pl: Places :| InvAt(s, pl);
    assert ThreadOk(s, t);
    forall u | u in s.threads && s.threads[u].status == Blocked
      ensures s.threads[u].pc == WaitBlocked
    {
      assert ThreadOk(s, u);
    }
    var pc := s.threads[t].pc;
    if InFork(pc) {
      ForkNearer(s, t);
    } else if InWait(pc) {
      WaitNearer(s, t);
    } else if InReport(pc) {
      ReportNearer(s, t);
    } else {
      VanishNearer(s, t);
    }
    WorkFallsBelow(s, Next(s, Go(t)).s, t, s.nextTid);
  }

  // ------------------------------------------------------------------ somebody can always move

  ghost predicate Inside(s: State, t: Tid) {
    t in s.threads && s.threads[t].pc != Idle && s.threads[t].pc != WaitBlocked && s.threads[t].pc != Gone
  }

  /** No call is under way: threads are idle, asleep in wait, or dead. */
  ghost predicate Quiet(s: State) {
    forall t :: !Inside(s, t)
  }

  /** The owner of a task's mutex is not waiting for anything. */
  lemma MuxOwnerGoes(s: State, q: Pid, u: Tid)
    requires Inv(s) && q in s.tasks && s.tasks[q].mux == Some(u)
    ensures Next(s, Go(u)).Step?
  {
    var pl: Places :| InvAt(s, pl);
    assert LockOk(s, u, q);
    assert ThreadOk(s, u);
    var p := s.threads[u].task;
    match s.threads[u].pc
    case ForkHasMux(c, ct) => LinkOutcome(s, u, p, c, ct);
    case WaitHasMux => WaitOutcome(s, u, p);
    case VanHasBoth => LeaveOutcome(s, u, p);
    case VanHasInit => HandOverOutcome(s, u, p);
    case VanHasTarget(x, orphan) => ReportOutcome(s, u, p, x, orphan);
  }

  /** The owner of vanish_tree_mux waits for a task's mutex at most. */
  lemma TreeOwnerGoes(s: State, u: Tid) returns (v: Tid)
    requires Inv(s) && s.tree == Some(u)
    ensures Next(s, Go(v)).Step?
  {
    var pl: Places :| InvAt(s, pl);
    assert TreeOk(s, u);
    assert ThreadOk(s, u) && PcOk(s, pl, u);
    v := u;
    var p := s.threads[u].task;
    match s.threads[u].pc {
      case VanWantMux =>
        LockOutcome(s, u, p, VanWantMux);
        v := BehindMux(s, u, p);
      case VanHasBoth => LeaveOutcome(s, u, p);
      case VanHasTree2 => TargetOutcome(s, u, p);
      case VanWantTarget(q, orphan) =>
        EnterOutcome(s, u, p, q, orphan);
        v := BehindMux(s, u, q);
    }
  }

  lemma BehindMux(s: State, t: Tid, q: Pid) returns (v: Tid)
    requires Inv(s) && q in s.tasks && (s.tasks[q].mux == None ==> Next(s, Go(t)).Step?)
    ensures Next(s, Go(v)).Step?
  {
    v := t;
    if s.tasks[q].mux.Some? {
      v := s.tasks[q].mux.value;
      MuxOwnerGoes(s, q, v);
    }
  }

  lemma BehindTree(s: State, t: Tid) returns (v: Tid)
    requires Inv(s) && (s.tree == None ==> Next(s, Go(t)).Step?)
    ensures Next(s, Go(v)).Step?
  {
    v := t;
    if s.tree.Some? {
      v := TreeOwnerGoes(s, s.tree.value);
    }
  }

  lemma SomebodyGoes(s: State, t: Tid) returns (v: Tid)
    requires Inv(s) && Inside(s, t)
    ensures Next(s, Go(v)).Step?
  {
    var pl: Places :| InvAt(s, pl);
    assert ThreadOk(s, t) && PcOk(s, pl, t);
    var p := s.threads[t].task;
    v := t;
    match s.threads[t].pc {
      case ForkWantMux(c, ct) =>
        LockOutcome(s, t, p, ForkWantMux(c, ct));
        v := BehindMux(s, t, p);
      case ForkHasMux(c, ct) => LinkOutcome(s, t, p, c, ct);
      case ForkLinked(c, ct) => ForkEnds(s, t, p, c, ct);
      case WaitWantMux =>
        LockOutcome(s, t, p, WaitWantMux);
        v := BehindMux(s, t, p);
      case WaitHasMux => WaitOutcome(s, t, p);
      case WaitCollect => CollectOutcome(s, t, p);
      case VanWantTree =>
        LockOutcome(s, t, p, VanWantTree);
        v := BehindTree(s, t);
      case VanWantMux =>
        LockOutcome(s, t, p, VanWantMux);
        v := BehindMux(s, t, p);
      case VanHasBoth => LeaveOutcome(s, t, p);
      case VanFree => SiblingsOutcome(s, t, p);
      case VanWantInit =>
        LockOutcome(s, t, p, VanWantInit);
        v := BehindMux(s, t, s.init);
      case VanHasInit => HandOverOutcome(s, t, p);
      case VanWantTree2 =>
        LockOutcome(s, t, p, VanWantTree2);
        v := BehindTree(s, t);
      case VanHasTree2 => TargetOutcome(s, t, p);
      case VanWantTarget(q, orphan) =>
        EnterOutcome(s, t, p, q, orphan);
        v := BehindMux(s, t, q);
      case VanHasTarget(q, orphan) => ReportOutcome(s, t, p, q, orphan);
    }
  }

  /** No deadlock: while a call is under way some thread can go on in its own. */
  lemma NoDeadlock(s: State)
    requires Reachable(s)
    ensures Quiet(s) <==> forall u :: !Next(s, Go(u)).Step?
  {
    ReachableInv(s);
    StuckIsQuiet(s);
  }

  lemma OnlyInsideGoes(s: State, u: Tid)
    requires Inv(s)
    ensures Next(s, Go(u)).Step? ==> Inside(s, u)
  {
    var pl: Places :| InvAt(s, pl);
    assert u in s.threads ==> ThreadOk(s, u);
  }

  lemma StuckIsQuiet(s: State)
    requires Inv(s)
    ensures Quiet(s) <==> forall u :: !Next(s, Go(u)).Step?
  {
    if !Quiet(s) {
      var t :| Inside(s, t);
      var v := SomebodyGoes(s, t);
    } else {
      forall u
        ensures !Next(s, Go(u)).Step?
      {
        OnlyInsideGoes(s, u);
      }
    }
  }

  // ------------------------------------------------------------------ every call ends

  lemma {:induction false} WorkBounds(s: State, acts: seq<Action>)
    requires Inv(s) && OnlyGo(acts) && Perform(s, acts).Step?
    ensures Inv(Perform(s, acts).s) && |acts| + Work(Perform(s, acts).s) <= Work(s)
    decreases |acts|
  {
    if acts != [] {
      StepInv(s, acts[0]);
      assert acts[0] == Go(acts[0].t);
      GoNearer(s, acts[0].t);
      WorkBounds(Next(s, acts[0]).s, acts[1..]);
    }
  }

  /** However the threads are interleaved, the calls under way are over after at most `Work(s)` steps: a run that cannot
      go on has left every thread idle, asleep in wait or dead, with every lock free and a running child for every
      sleeper. */
  lemma EveryCallEnds(s: State, acts: seq<Action>)
    requires Reachable(s) && OnlyGo(acts) && Perform(s, acts).Step?
    ensures |acts| <= Work(s)
    ensures var s' := Perform(s, acts).s;
            (forall u :: !Next(s', Go(u)).Step?) ==>
              && Quiet(s') && s'.tree == None && (forall q :: q in s'.tasks ==> s'.tasks[q].mux == None)
              && (forall q :: q in s'.tasks ==> |s'.tasks[q].waiting| <= |s'.tasks[q].active|)
  {
    ReachableInv(s);
    WorkBounds(s, acts);
    var s' := Perform(s, acts).s;
    StuckIsQuiet(s');
    if Quiet(s') {
      QuietIsUnlocked(s');
    }
  }

  lemma QuietIsUnlocked(s: State)
    requires Inv(s) && Quiet(s)
    ensures s.tree == None
    ensures forall q :: q in s.tasks ==> s.tasks[q].mux == None && |s.tasks[q].waiting| <= |s.tasks[q].active|
  {
    var pl: Places :| InvAt(s, pl);
    assert s.tree.Some? ==> TreeOk(s, s.tree.value) && !Inside(s, s.tree.value);
    forall q | q in s.tasks
      ensures s.tasks[q].mux == None && |s.tasks[q].waiting| <= |s.tasks[q].active|
    {
      assert s.tasks[q].mux.Some? ==> LockOk(s, s.tasks[q].mux.value, q) && !Inside(s, s.tasks[q].mux.value);
      assert Covered(s, q) && TaskOk(s, q);
    }
  }

  /** ... and such a run exists. */
  lemma {:induction false} Settle(s: State) returns (acts: seq<Action>)
    requires Inv(s)
    ensures OnlyGo(acts) && Perform(s, acts).Step? && Quiet(Perform(s, acts).s)
    decreases Work(s)
  {
    acts := [];
    if !Quiet(s) {
      var t :| Inside(s, t);
      var v := SomebodyGoes(s, t);
      StepInv(s, Go(v));
      GoNearer(s, v);
      var rest := Settle(Next(s, Go(v)).s);
      acts := [Go(v)] + rest;
      assert acts[1..] == rest;
    }
  }
}
