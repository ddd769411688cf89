/** What holds over every run of fork, wait and vanish. */
module TaskLifeTheorems {
  import opened Seqs
  import opened TaskLife
  import opened TaskLifeInvariant
  import opened TaskLifeProofs
  import Fork = TaskLifeFork
  import Wait = TaskLifeWait
  import Vanish = TaskLifeVanish
  import Last = TaskLifeReport
  import Assign = TaskLifeAssign

  ghost predicate Inv(s: State) {
    exists pl :: InvAt(s, pl)
  }

  lemma InitialLocks(init: Pid, t: Tid)
    ensures LocksOk(Initial(init, t)) && ForksApart(Initial(init, t))
  {
    var s := Initial(init, t);
    forall u, q
      ensures LockOk(s, u, q)
    {
    }
    forall u
      ensures TreeOk(s, u)
    {
    }
  }

  lemma InitialLists(init: Pid, t: Tid)
    requires init > 0
    ensures var s, pl: Places := Initial(init, t), map[init := Live];
            ThreadsOk(s, pl) && TasksOk(s) && PlacesOk(s, pl) && CountsOk(s) && Accounted(s)
  {
    var s, pl: Places := Initial(init, t), map[init := Live];
    forall u
      ensures MemberOk(s, init, u)
    {
    }
    assert NoDup([t]) && TaskOk(s, init);
    forall q, p | q in s.tasks
      ensures ListsOk(s, pl, q, p)
    {
    }
    assert PlaceOk(s, pl, init) && OnParentsList(s, pl, init);
  }

  lemma InitialInv(init: Pid, t: Tid)
    requires init > 0
    ensures Inv(Initial(init, t))
  {
    var s := Initial(init, t);
    var pl: Places := map[init := Live];
    InitialLocks(init, t);
    InitialLists(init, t);
    assert InvAt(s, pl);
  }

  // ------------------------------------------------------------------ one step

  lemma ForkCase(s: State, pl: Places, t: Tid)
    requires Stepping(s, pl, t) && InFork(s.threads[t].pc)
    ensures ForkStep(s, t) != Panic && (ForkStep(s, t).Step? ==> Inv(ForkStep(s, t).s))
  {
    match s.threads[t].pc
    case ForkWantMux(c, ct) => TakeMuxKeeps(s, pl, t, s.threads[t].task, ForkHasMux(c, ct));
    case ForkHasMux(c, ct) => Fork.LinkKeeps(s, pl, t, c, ct);
    case ForkLinked(c, ct) => Fork.FinishKeeps(s, pl, t, c, ct);
  }

  lemma WaitCase(s: State, pl: Places, t: Tid)
    requires Stepping(s, pl, t) && InWait(s.threads[t].pc)
    ensures WaitStep(s, t) != Panic && (WaitStep(s, t).Step? ==> Inv(WaitStep(s, t).s))
  {
    match s.threads[t].pc
    case WaitWantMux => TakeMuxKeeps(s, pl, t, s.threads[t].task, WaitHasMux);
    case WaitHasMux => RegionCase(s, pl, t);
    case WaitCollect => Wait.FreeKeeps(s, pl, t);
  }

  lemma RegionCase(s: State, pl: Places, t: Tid)
    requires Stepping(s, pl, t) && s.threads[t].pc == WaitHasMux
    ensures WaitRegion(s, t).Step? && Inv(WaitRegion(s, t).s)
  {
    if Wait.Takes(s, t) {
      Wait.TakeKeeps(s, pl, t);
    } else if Wait.Blocks(s, t) {
      Wait.BlockKeeps(s, pl, t);
    } else {
      Wait.RefuseKeeps(s, pl, t);
    }
  }

  lemma VanishCase(s: State, pl: Places, t: Tid)
    requires Stepping(s, pl, t)
    ensures VanishStep(s, t) != Panic && (VanishStep(s, t).Step? ==> Inv(VanishStep(s, t).s))
  {
    match s.threads[t].pc
    case VanWantTree => TakeTreeKeeps(s, pl, t, VanWantMux);
    case VanWantMux => TakeMuxKeeps(s, pl, t, s.threads[t].task, VanHasBoth);
    case VanHasBoth => Vanish.LeaveKeeps(s, pl, t);
    case VanFree => Last.SiblingsKeep(s, pl, t);
    case VanWantInit => TakeMuxKeeps(s, pl, t, s.init, VanHasInit);
    case VanHasInit => Assign.HandKeeps(s, pl, t);
    case _ =>
  }

  lemma ReportCase(s: State, pl: Places, t: Tid)
    requires Stepping(s, pl, t) && InReport(s.threads[t].pc)
    ensures ReportStep(s, t) != Panic && (ReportStep(s, t).Step? ==> Inv(ReportStep(s, t).s))
  {
    match s.threads[t].pc
    case VanWantTree2 => TakeTreeKeeps(s, pl, t, VanHasTree2);
    case VanHasTree2 => FindTargetKeeps(s, pl, t);
    case VanWantTarget(q, orphan) => Last.EnterKeeps(s, pl, t, q, orphan);
    case VanHasTarget(q, orphan) => Assign.ReportKeeps(s, pl, t, q, orphan);
  }

  lemma CallCase(s: State, pl: Places, t: Tid, call: Syscall)
    requires Stepping(s, pl, t)
    ensures CallStep(s, t, call) != Panic && (CallStep(s, t, call).Step? ==> Inv(CallStep(s, t, call).s))
  {
    if call.Wait? || call.Vanish? {
      Fork.EnterKeeps(s, pl, t, call);
    } else if s.threads[t].pc == Idle {
      if call.Spawn? {
        Fork.SpawnKeeps(s, pl, t);
      } else if s.tasks[s.threads[t].task].numThreads == 1 {
        Fork.ForkKeeps(s, pl, t);
        Fork.ForkStepIs(s, t);
      }
    }
  }

  lemma GoCase(s: State, pl: Places, t: Tid)
    requires Stepping(s, pl, t)
    ensures GoStep(s, t) != Panic && (GoStep(s, t).Step? ==> Inv(GoStep(s, t).s))
  {
    var pc := s.threads[t].pc;
    if InFork(pc) {
      ForkCase(s, pl, t);
    } else if InWait(pc) {
      WaitCase(s, pl, t);
    } else if InReport(pc) {
      ReportCase(s, pl, t);
    } else {
      VanishCase(s, pl, t);
    }
  }

  /** Every step of every thread keeps the invariant, and no affirm fails. */
  lemma StepInv(s: State, a: Action)
    requires Inv(s)
    ensures Next(s, a) != Panic && (Next(s, a).Step? ==> Inv(Next(s, a).s))
  {
    var pl: Places :| InvAt(s, pl);
    if a.t in s.threads && s.threads[a.t].status == Ready {
      assert ThreadOk(s, a.t);
      match a {
        case Call(t, call) => CallCase(s, pl, t, call);
        case Go(t) => GoCase(s, pl, t);
      }
    }
  }

  // ------------------------------------------------------------------ runs

  lemma {:induction false} RunInv(s: State, acts: seq<Action>)
    requires Inv(s)
    ensures Run(s, acts).Step? && Inv(Run(s, acts).s)
    decreases |acts|
  {
    if acts != [] {
      StepInv(s, acts[0]);
      match Next(s, acts[0])
      case Step(s') => RunInv(s', acts[1..]);
      case Disabled => RunInv(s, acts[1..]);
    }
  }

  ghost predicate Reachable(s: State) {
    exists init: Pid, t: Tid, acts :: init > 0 && Run(Initial(init, t), acts) == Step(s)
  }

  lemma ReachableInv(s: State)
    requires Reachable(s)
    ensures Inv(s)
  {
    var init: Pid, t: Tid, acts :| init > 0 && Run(Initial(init, t), acts) == Step(s);
    InitialInv(init, t);
    RunInv(Initial(init, t), acts);
  }

  /** No interleaving of fork, wait and vanish makes an affirm fail. */
  lemma NeverPanics(init: Pid, t: Tid, acts: seq<Action>)
    requires init > 0
    ensures Run(Initial(init, t), acts) != Panic
  {
    InitialInv(init, t);
    RunInv(Initial(init, t), acts);
  }

  // ------------------------------------------------------------------ no child is lost or collected twice

  ghost predicate IsLive(s: State, p: Pid) {
    p in s.tasks && s.tasks[p].listed
  }

  ghost predicate Carries(s: State, p: Pid, t: Tid) {
    t in s.threads && s.threads[t].task == p && Dying(s.threads[t].pc)
  }

  ghost predicate Lists(s: State, p: Pid, q: Pid) {
    q in s.tasks && p in s.tasks[q].vanished
  }

  ghost predicate Collected(s: State, p: Pid, w: Tid) {
    w in s.threads && s.threads[w].collected == Some(p)
  }

  ghost function Count(b: bool): nat {
    if b then 1 else 0
  }

  /** A pid that was given out is live, or carried by its vanishing last thread, or on a vanished list,
      or collected by a waiter, or reaped: exactly one of these. */
  lemma ExactlyOnePlace(s: State, p: Pid)
    requires Reachable(s) && s.init <= p < s.nextPid
    ensures Count(IsLive(s, p)) + Count(exists t :: Carries(s, p, t)) + Count(exists q :: Lists(s, p, q))
            + Count(exists w :: Collected(s, p, w)) + Count(p in s.reaped) == 1
  {
    ReachableInv(s);
    var pl: Places :| InvAt(s, pl);
    assert p in s.tasks ==> PlaceOk(s, pl, p);
    forall t | Carries(s, p, t)
      ensures p in s.tasks && pl[p] == Carried(t)
    {
      assert ThreadOk(s, t) && CarriesOk(s, pl, t);
    }
    forall q | Lists(s, p, q)
      ensures p in s.tasks && pl[p] == OnList(q)
    {
      assert ListsOk(s, pl, q, p);
    }
    forall w | Collected(s, p, w)
      ensures p in s.tasks && pl[p] == Held(w)
    {
      assert CarriesOk(s, pl, w);
    }
    if p in s.tasks {
      match pl[p]
      case Carried(t) => assert Carries(s, p, t);
      case OnList(q) => assert Lists(s, p, q);
      case Held(w) => assert Collected(s, p, w);
      case _ =>
    }
  }

  /** ... and whoever has it is the only one of its kind; a list names it once. */
  lemma SoleHolder(s: State, p: Pid)
    requires Reachable(s)
    ensures forall t, u :: Carries(s, p, t) && Carries(s, p, u) ==> t == u
    ensures forall q, r :: Lists(s, p, q) && Lists(s, p, r) ==> q == r
    ensures forall w, x :: Collected(s, p, w) && Collected(s, p, x) ==> w == x
    ensures forall q :: q in s.tasks ==> NoDup(s.tasks[q].vanished)
    ensures NoDup(s.reaped)
  {
    ReachableInv(s);
    var pl: Places :| InvAt(s, pl);
    forall t | Carries(s, p, t)
      ensures p in pl && pl[p] == Carried(t)
    {
      assert CarriesOk(s, pl, t);
    }
    forall q | Lists(s, p, q)
      ensures p in pl && pl[p] == OnList(q)
    {
      assert ListsOk(s, pl, q, p);
    }
    forall w | Collected(s, p, w)
      ensures p in pl && pl[p] == Held(w)
    {
      assert CarriesOk(s, pl, w);
    }
    forall q | q in s.tasks
      ensures NoDup(s.tasks[q].vanished)
    {
      assert TaskOk(s, q);
    }
  }

  // ------------------------------------------------------------------ no waiter is stranded

  /** Counters are list lengths, and the waiters of a task are covered by children still running. */
  lemma WaitersCovered(s: State, q: Pid)
    requires Reachable(s) && q in s.tasks && s.tasks[q].listed && s.tasks[q].mux == None
    ensures var k := s.tasks[q];
            && k.numActive == |k.active| && k.numVanished == |k.vanished| && k.numWaiting == |k.waiting|
            && k.numThreads == |k.threads|
            && |k.waiting| <= |k.active|
            && (q != s.init ==> k.waiting == [] || k.vanished == [])
  {
    ReachableInv(s);
    var pl: Places :| InvAt(s, pl);
    assert TaskOk(s, q) && Covered(s, q) && (q != s.init ==> NotBoth(s, q));
  }

  /** The active list is exactly the children that were linked and have not reported. */
  lemma ActiveExact(s: State, q: Pid, p: Pid)
    requires Reachable(s) && q in s.tasks && s.tasks[q].listed && p in s.tasks
    ensures p in s.tasks[q].active <==>
            && s.tasks[p].parent == q
            && (if s.tasks[p].listed
                then !exists t :: t in s.threads && (s.threads[t].pc.ForkWantMux? || s.threads[t].pc.ForkHasMux?)
                                  && s.threads[t].pc.child == p
                else exists t :: Carries(s, p, t) && !s.threads[t].pc.VanHasTarget?)
  {
    ReachableInv(s);
    var pl: Places :| InvAt(s, pl);
    assert PlaceOk(s, pl, p) && OnParentsList(s, pl, p) && ListsOk(s, pl, q, p);
    forall t | t in s.threads && (s.threads[t].pc.ForkWantMux? || s.threads[t].pc.ForkHasMux?)
               && s.threads[t].pc.child == p
      ensures pl[p] == Forming(t)
    {
      assert ThreadOk(s, t) && PcOk(s, pl, t);
    }
    forall t | Carries(s, p, t)
      ensures pl[p] == Carried(t)
    {
      assert CarriesOk(s, pl, t);
    }
    if pl[p].Carried? {
      assert Carries(s, p, pl[p].who);
    }
  }

  /** Once every child has reported, nobody is left waiting. */
  lemma NoWaiterStranded(s: State, q: Pid)
    requires Reachable(s) && q in s.tasks && s.tasks[q].listed && s.tasks[q].mux == None && s.tasks[q].active == []
    ensures s.tasks[q].waiting == []
    ensures forall t :: t in s.threads && s.threads[t].task == q ==> s.threads[t].status != Blocked
  {
    WaitersCovered(s, q);
    ReachableInv(s);
    var pl: Places :| InvAt(s, pl);
    forall t | t in s.threads && s.threads[t].task == q
      ensures s.threads[t].status != Blocked
    {
      assert ThreadOk(s, t);
    }
  }

  // ------------------------------------------------------------------ init's orphan transfer

  /** One transfer serves one waiter of init.  It leaves a waiter beside an uncollected child exactly
      when both more than one waiter and more than one child were there. */
  lemma TransferServesOne(s: State, t: Tid)
    requires Inv(s) && t in s.threads && s.threads[t].status == Ready && s.threads[t].pc == VanHasInit
    requires s.init in s.tasks && s.threads[t].task in s.tasks && NotBoth(s, s.init)
    ensures HandOver(s, t).Step? && s.init in HandOver(s, t).s.tasks
    ensures NotBoth(HandOver(s, t).s, s.init) <==>
            |s.tasks[s.init].waiting| <= 1 || |s.tasks[s.threads[t].task].vanished| <= 1
  {
    var pl: Places :| InvAt(s, pl);
    assert ThreadOk(s, t);
    Assign.HandKeeps(s, pl, t);
  }

  ghost predicate InitServed(s: State) {
    s.init in s.tasks ==> NotBoth(s, s.init)
  }

  /** The guard of the transfer: at most one waiter or at most one child. */
  ghost predicate GoodTransfer(s: State, a: Action) {
    a.Go? && a.t in s.threads && s.threads[a.t].pc == VanHasInit && s.threads[a.t].task in s.tasks && s.init in s.tasks
    ==> |s.tasks[s.init].waiting| <= 1 || |s.tasks[s.threads[a.t].task].vanished| <= 1
  }

  ghost predicate ServedAfter(s: State, o: Outcome) {
    o.Step? && InitServed(s) ==> InitServed(o.s)
  }

  lemma ForkServes(s: State, t: Tid)
    requires t in s.threads && s.threads[t].task in s.tasks
    ensures ServedAfter(s, ForkStep(s, t))
  {
  }

  lemma WaitServes(s: State, t: Tid)
    requires t in s.threads && s.threads[t].task in s.tasks
    ensures ServedAfter(s, WaitStep(s, t))
  {
  }

  lemma ReportServes(s: State, t: Tid)
    requires t in s.threads && s.threads[t].task in s.tasks
    ensures ServedAfter(s, ReportStep(s, t))
  {
  }

  lemma VanishServes(s: State, t: Tid)
    requires t in s.threads && s.threads[t].task in s.tasks && s.threads[t].pc != VanHasInit
    ensures ServedAfter(s, VanishStep(s, t))
  {
  }

  lemma CallServes(s: State, t: Tid, call: Syscall)
    requires t in s.threads && s.threads[t].task in s.tasks && s.nextPid != s.init
    ensures ServedAfter(s, CallStep(s, t, call))
  {
  }

  lemma StepServes(s: State, a: Action)
    requires Inv(s) && GoodTransfer(s, a)
    ensures ServedAfter(s, Next(s, a))
  {
    var pl: Places :| InvAt(s, pl);
    if a.t in s.threads && s.threads[a.t].status == Ready && s.threads[a.t].task in s.tasks {
      assert TaskOk(s, s.init);
      match a
      case Call(t, call) => CallServes(s, t, call);
      case Go(t) => GoServes(s, t);
    }
  }

  lemma GoServes(s: State, t: Tid)
    requires Inv(s) && t in s.threads && s.threads[t].status == Ready && s.threads[t].task in s.tasks
    requires GoodTransfer(s, Go(t))
    ensures ServedAfter(s, GoStep(s, t))
  {
    var pc := s.threads[t].pc;
    if pc == VanHasInit {
      if s.init in s.tasks && NotBoth(s, s.init) {
        TransferServesOne(s, t);
      }
    } else {
      ForkServes(s, t);
      WaitServes(s, t);
      ReportServes(s, t);
      VanishServes(s, t);
    }
  }

  /** Every transfer of the run meets the guard. */
  ghost predicate GoodRun(s: State, acts: seq<Action>)
    decreases |acts|
  {
    acts == [] || (GoodTransfer(s, acts[0])
                   && match Next(s, acts[0])
                      case Step(s') => GoodRun(s', acts[1..])
                      case Disabled => GoodRun(s, acts[1..])
                      case Panic => true)
  }

  /** Under that guard init, like every other task, never keeps a dead child beside a waiter. */
  lemma {:induction false} RunServes(s: State, acts: seq<Action>)
    requires Inv(s) && InitServed(s) && GoodRun(s, acts)
    ensures Run(s, acts).Step? && InitServed(Run(s, acts).s)
    decreases |acts|
  {
    if acts != [] {
      StepInv(s, acts[0]);
      StepServes(s, acts[0]);
      match Next(s, acts[0])
      case Step(s') => RunServes(s', acts[1..]);
      case Disabled => RunServes(s, acts[1..]);
    }
  }

  // ------------------------------------------------------------------ only wait frees a task

  ghost predicate KeepsTasks(s: State, o: Outcome) {
    o.Step? ==> o.s.reaped == s.reaped && s.tasks.Keys <= o.s.tasks.Keys
  }

  ghost predicate Reaps(s: State, o: Outcome, t: Tid) {
    o.Step? ==>
      && t in s.threads && s.threads[t].collected.Some?
      && o.s.reaped == s.reaped + [s.threads[t].collected.value]
      && o.s.tasks.Keys == s.tasks.Keys - {s.threads[t].collected.value}
  }

  lemma VanishKeepsTasks(s: State, t: Tid)
    requires t in s.threads && s.threads[t].task in s.tasks
    ensures KeepsTasks(s, VanishStep(s, t))
  {
  }

  lemma ReportKeepsTasks(s: State, t: Tid)
    requires t in s.threads && s.threads[t].task in s.tasks
    ensures KeepsTasks(s, ReportStep(s, t))
  {
  }

  lemma ForkKeepsTasks(s: State, t: Tid)
    requires t in s.threads && s.threads[t].task in s.tasks
    ensures KeepsTasks(s, ForkStep(s, t))
  {
  }

  lemma WaitReaps(s: State, t: Tid)
    requires t in s.threads && s.threads[t].task in s.tasks
    ensures if s.threads[t].pc == WaitCollect then Reaps(s, WaitStep(s, t), t) else KeepsTasks(s, WaitStep(s, t))
  {
  }

  lemma CallKeepsTasks(s: State, t: Tid, call: Syscall)
    requires t in s.threads && s.threads[t].task in s.tasks
    ensures KeepsTasks(s, CallStep(s, t, call))
  {
  }

  lemma GoFrees(s: State, t: Tid)
    requires t in s.threads && s.threads[t].task in s.tasks
    ensures if s.threads[t].pc == WaitCollect then Reaps(s, GoStep(s, t), t) else KeepsTasks(s, GoStep(s, t))
  {
    VanishKeepsTasks(s, t);
    ReportKeepsTasks(s, t);
    ForkKeepsTasks(s, t);
    WaitReaps(s, t);
  }

  /** A task disappears in one way only: its collector frees it at the end of wait, and wait reports it. */
  lemma OnlyWaitFrees(s: State, a: Action)
    ensures if a.Go? && a.t in s.threads && s.threads[a.t].pc == WaitCollect then Reaps(s, Next(s, a), a.t)
            else KeepsTasks(s, Next(s, a))
  {
    if a.t in s.threads && s.threads[a.t].task in s.tasks {
      match a
      case Call(t, call) => CallKeepsTasks(s, t, call);
      case Go(t) => GoFrees(s, t);
    }
  }
}
