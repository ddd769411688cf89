/** The ticket mutex under every interleaving of its memory accesses. */
module TicketProofs {
  import opened Seqs
  import opened TicketMutex

  // ------------------------------------------------------------------ what survives a step

  ghost predicate SameHold(s: State, s': State, u: Tid) {
    (u in s.pc <==> u in s'.pc) && (u in s.pc ==> Holds(s'.pc[u]) == Holds(s.pc[u]))
  }

  lemma HoldersSame(s: State, s': State)
    requires EntriesOk(s) && s'.entries == s.entries && s'.served == s.served
    requires forall u {:trigger SameHold(s, s', u)} :: SameHold(s, s', u)
    ensures EntriesOk(s')
  {
    if t :| t in s.pc && Holds(s.pc[t]) {
      assert SameHold(s, s', t);
    }
    if t :| t in s'.pc && Holds(s'.pc[t]) {
      assert SameHold(s, s', t);
    }
  }

  /** A number that was out still is. */
  ghost predicate KeepsTickets(s: State, s': State, u: Tid) {
    u in s.pc ==> u in s'.pc && Tickets(s.pc[u]) <= Tickets(s'.pc[u])
  }

  lemma NumberKept(s: State, s': State, n: nat)
    requires NumberOk(s, n) && s.served <= n < s.issued
    requires forall u {:trigger KeepsTickets(s, s', u)} :: KeepsTickets(s, s', u)
    ensures NumberOk(s', n)
  {
    var u: Tid :| u in s.pc && n in Tickets(s.pc[u]);
    assert KeepsTickets(s, s', u);
  }

  /** Only t moves, with the same tickets; nobody starts or stops holding the lock. */
  ghost predicate Quiet(s: State, s': State, t: Tid) {
    && t in s.pc && t in s'.pc && s' == s.(pc := s.pc[t := s'.pc[t]], owner := s'.owner, late := s'.late)
    && Tickets(s'.pc[t]) == Tickets(s.pc[t]) && Holds(s'.pc[t]) == Holds(s.pc[t])
  }

  lemma QuietTickets(s: State, s': State, t: Tid)
    requires Inv(s) && Quiet(s, s', t)
    ensures forall u, v {:trigger TicketOk(s', u, v)} :: TicketOk(s', u, v)
    ensures forall n {:trigger NumberOk(s', n)} :: NumberOk(s', n)
    ensures EntriesOk(s')
  {
    forall u, v
      ensures TicketOk(s', u, v)
    {
      assert TicketOk(s, u, v);
    }
    forall u
      ensures KeepsTickets(s, s', u) && SameHold(s, s', u)
    {
    }
    forall n: nat
      ensures NumberOk(s', n)
    {
      assert NumberOk(s, n);
      if s.served <= n < s.issued {
        NumberKept(s, s', n);
      }
    }
    HoldersSame(s, s');
  }

  lemma QuietKeeps(s: State, s': State, t: Tid)
    requires Inv(s) && Quiet(s, s', t) && s'.owner == s.owner && s'.late == s.late
    requires PcOk(s', t) && (Named(s.pc[t]) || s.pc[t].UnlockClear? ==> Named(s'.pc[t]) || s'.pc[t].UnlockClear?)
    ensures Inv(s')
  {
    QuietTickets(s, s', t);
    forall u
      ensures PcOk(s', u)
    {
      assert PcOk(s, u);
    }
  }

  /** Nobody else holds the lock while t does. */
  lemma Alone(s: State, t: Tid, u: Tid)
    requires Inv(s) && t in s.pc && u in s.pc && Holds(s.pc[t]) && Holds(s.pc[u])
    ensures t == u
  {
    assert PcOk(s, t) && PcOk(s, u) && TicketOk(s, t, u);
    assert Turn(s.pc[t]) in Tickets(s.pc[t]) && Turn(s.pc[u]) in Tickets(s.pc[u]);
  }

  // ------------------------------------------------------------------ a ticket is taken

  lemma TakePcs(s: State, t: Tid, pc: Pc, u: Tid)
    requires PcOk(s, u) && PcOk(s, t) && t in s.pc && s.served <= s.issued
    requires (s.pc[t].Take? && pc == Spin(s.issued)) || (s.pc[t].Retake? && pc == Stuck(s.pc[t].n, s.issued))
    ensures PcOk(TakeTicket(s, t, pc), u)
  {
    assert s.pc[t].Retake? ==> s.pc[t].n in Tickets(s.pc[t]);
  }

  lemma TakeKeeps(s: State, t: Tid, pc: Pc)
    requires Inv(s) && t in s.pc
    requires (s.pc[t].Take? && pc == Spin(s.issued)) || (s.pc[t].Retake? && pc == Stuck(s.pc[t].n, s.issued))
    ensures Inv(TakeTicket(s, t, pc))
  {
    var s' := TakeTicket(s, t, pc);
    forall u
      ensures PcOk(s', u) && KeepsTickets(s, s', u) && SameHold(s, s', u)
    {
      assert PcOk(s, u) && PcOk(s, t);
      TakePcs(s, t, pc, u);
    }
    forall u, v
      ensures TicketOk(s', u, v)
    {
      assert TicketOk(s, u, v) && PcOk(s, u) && PcOk(s, v);
    }
    forall n: nat
      ensures NumberOk(s', n)
    {
      assert NumberOk(s, n);
      assert t in s'.pc && s.issued in Tickets(s'.pc[t]);
      if s.served <= n < s.issued {
        NumberKept(s, s', n);
      }
    }
    HoldersSame(s, s');
  }

  // ------------------------------------------------------------------ a turn begins

  lemma NobodyHolds(s: State, t: Tid, n: nat)
    requires Inv(s) && t in s.pc && s.pc[t] == Spin(n) && n == s.served
    ensures forall u :: u in s.pc ==> !Holds(s.pc[u])
  {
    forall u | u in s.pc
      ensures !Holds(s.pc[u])
    {
      assert PcOk(s, u) && TicketOk(s, t, u) && n in Tickets(s.pc[t]);
      assert Holds(s.pc[u]) ==> Turn(s.pc[u]) in Tickets(s.pc[u]);
    }
  }

  /** Past the loop: the thread whose ticket is up, while nobody holds the lock. */
  lemma EnterKeeps(s: State, t: Tid, n: nat)
    requires Inv(s) && FewThreads(s) && t in s.pc && s.pc[t] == Spin(n) && n % WORDS == s.serving
    ensures n == s.served && |s.entries| == n
    ensures Inv(At(s, t, Enter(n)).(entries := s.entries + [n]))
  {
    assert PcOk(s, t) && n in Tickets(s.pc[t]);
    UpMeansTurn(s, n);
    NobodyHolds(s, t, n);
    var s' := At(s, t, Enter(n)).(entries := s.entries + [n]);
    forall u
      ensures PcOk(s', u) && KeepsTickets(s, s', u)
    {
      assert PcOk(s, u);
    }
    forall u, v
      ensures TicketOk(s', u, v)
    {
      assert TicketOk(s, u, v);
    }
    forall m: nat
      ensures NumberOk(s', m)
    {
      assert NumberOk(s, m);
      if s.served <= m < s.issued {
        NumberKept(s, s', m);
      }
    }
    assert t in s'.pc && Holds(s'.pc[t]);
  }

  /** A thread that waits for its own unlock waits on. */
  lemma StuckStays(s: State, t: Tid)
    requires Inv(s) && FewThreads(s) && t in s.pc && s.pc[t].Stuck?
    ensures s.pc[t].m % WORDS != s.serving
  {
    assert PcOk(s, t) && s.pc[t].m in Tickets(s.pc[t]);
    UpMeansTurn(s, s.pc[t].m);
  }

  /** The store of owner_tid. */
  lemma NameKeeps(s: State, t: Tid, n: nat)
    requires Inv(s) && t in s.pc && s.pc[t] == Enter(n)
    ensures Inv(At(s, t, In(n)).(owner := Some(t), late := false))
  {
    var s' := At(s, t, In(n)).(owner := Some(t), late := false);
    QuietTickets(s, s', t);
    forall u
      ensures PcOk(s', u)
    {
      assert PcOk(s, u);
      if u in s.pc && Holds(s.pc[u]) {
        Alone(s, t, u);
      }
    }
  }

  // ------------------------------------------------------------------ a turn ends

  lemma NotHolding(s: State, t: Tid, u: Tid)
    requires Inv(s) && t in s.pc && u in s.pc && t != u && Holds(s.pc[t])
    ensures !Holds(s.pc[u])
  {
    if Holds(s.pc[u]) {
      Alone(s, t, u);
    }
  }

  lemma DoneEntries(s: State, t: Tid, s': State)
    requires Inv(s) && t in s.pc && Holds(s.pc[t]) && t in s'.pc && !Holds(s'.pc[t]) && s'.pc == s.pc[t := s'.pc[t]]
    requires s'.entries == s.entries && s'.served == s.served + 1
    ensures EntriesOk(s')
  {
    forall u | u in s'.pc
      ensures !Holds(s'.pc[u])
    {
      if u != t && Holds(s.pc[u]) {
        Alone(s, t, u);
      }
    }
  }

  lemma DonePcs(s: State, t: Tid, u: Tid)
    requires Inv(s) && t in s.pc && s.pc[t].UnlockStore?
    ensures PcOk(GoStep(s, t).s, u)
  {
    assert PcOk(s, t) && PcOk(s, u) && TicketOk(s, t, u) && s.served in Tickets(s.pc[t]);
    if u in s.pc && u != t {
      NotHolding(s, t, u);
    }
  }

  lemma DoneNumbers(s: State, t: Tid, m: nat)
    requires Inv(s) && t in s.pc && s.pc[t].UnlockStore?
    ensures NumberOk(GoStep(s, t).s, m)
  {
    var s' := GoStep(s, t).s;
    assert PcOk(s, t) && NumberOk(s, m);
    if s'.served <= m < s.issued {
      var u: Tid :| u in s.pc && m in Tickets(s.pc[u]);
      assert u in s'.pc && m in Tickets(s'.pc[u]);
    }
  }

  /** serving++ passes the lock on. */
  lemma DoneKeeps(s: State, t: Tid)
    requires Inv(s) && t in s.pc && s.pc[t].UnlockStore?
    ensures GoStep(s, t).Step? && Inv(GoStep(s, t).s)
  {
    var s' := GoStep(s, t).s;
    assert PcOk(s, t) && s.pc[t].n in Tickets(s.pc[t]);
    forall u
      ensures PcOk(s', u)
    {
      DonePcs(s, t, u);
    }
    forall u, v
      ensures TicketOk(s', u, v)
    {
      assert TicketOk(s, u, v);
    }
    forall m: nat
      ensures NumberOk(s', m)
    {
      DoneNumbers(s, t, m);
    }
    DoneEntries(s, t, s');
  }

  /** The last store of mutex_unlock, which may come late. */
  lemma ClearKeeps(s: State, t: Tid)
    requires Inv(s) && t in s.pc && s.pc[t].UnlockClear?
    ensures Inv(GoStep(s, t).s)
  {
    var s' := GoStep(s, t).s;
    QuietTickets(s, s', t);
    forall u
      ensures PcOk(s', u)
    {
      assert PcOk(s, u);
      assert u in s.pc && Named(s.pc[u]) ==> Held(s);
    }
  }

  // ------------------------------------------------------------------ every step

  lemma CallKeeps(s: State, a: Action)
    requires Inv(s) && a.t in s.pc && (a.Lock? || a.Unlock?) && Next(s, a).Step?
    ensures Inv(Next(s, a).s)
  {
    assert PcOk(s, a.t);
    QuietKeeps(s, Next(s, a).s, a.t);
  }

  /** mutex_unlock's first affirm fails exactly when another thread's unlock has cleared owner_tid since. */
  lemma OwnerAffirmIff(s: State, t: Tid)
    requires Inv(s) && t in s.pc && s.pc[t].UnlockOwner?
    ensures GoStep(s, t) == Panic(NotOwner) <==> s.late
  {
    assert PcOk(s, t);
  }

  /** Its second affirm fails exactly when next_ticket has wrapped and serving has not. */
  lemma LockedAffirmIff(s: State, t: Tid)
    requires Inv(s) && FewThreads(s) && t in s.pc && s.pc[t].UnlockNext?
    ensures GoStep(s, t) == Panic(NotLocked) <==> s.served / WORDS != s.issued / WORDS
  {
    FewTickets(s);
    assert PcOk(s, t) && s.pc[t].n in Tickets(s.pc[t]);
  }

  lemma GoKeeps(s: State, t: Tid)
    requires Inv(s) && FewThreads(s) && t in s.pc && GoStep(s, t).Step?
    ensures Inv(GoStep(s, t).s)
  {
    assert PcOk(s, t);
    match s.pc[t]
    case Take => TakeKeeps(s, t, Spin(s.issued));
    case Retake(n) => TakeKeeps(s, t, Stuck(n, s.issued));
    case Spin(n) =>
      if n % WORDS == s.serving {
        EnterKeeps(s, t, n);
      }
    case Stuck(_, _) => StuckStays(s, t);
    case Enter(n) => NameKeeps(s, t, n);
    case UnlockStore(_, _) => DoneKeeps(s, t);
    case UnlockClear => ClearKeeps(s, t);
    case Out =>
    case In(_) =>
    case _ => QuietKeeps(s, GoStep(s, t).s, t);
  }

  lemma StepInv(s: State, a: Action)
    requires Inv(s) && FewThreads(s) && Next(s, a).Step?
    ensures Inv(Next(s, a).s) && FewThreads(Next(s, a).s)
  {
    if a.Go? {
      GoKeeps(s, a.t);
    } else {
      CallKeeps(s, a);
    }
    assert Next(s, a).s.pc.Keys == s.pc.Keys;
  }

  lemma {:induction false} RunInv(s: State, acts: seq<Action>)
    requires Inv(s) && FewThreads(s) && Run(s, acts).Step?
    ensures Inv(Run(s, acts).s) && FewThreads(Run(s, acts).s)
    decreases |acts|
  {
    if acts != [] {
      match Next(s, acts[0])
      case Step(s') =>
        StepInv(s, acts[0]);
        RunInv(s', acts[1..]);
      case Disabled => RunInv(s, acts[1..]);
    }
  }

  lemma InitialInv(ts: set<Tid>)
    requires 2 * |ts| <= WORDS
    ensures Inv(Initial(ts)) && FewThreads(Initial(ts))
  {
    var s := Initial(ts);
    assert s.pc.Keys == ts;
    forall t
      ensures PcOk(s, t)
    {
    }
    forall t, u
      ensures TicketOk(s, t, u)
    {
    }
    forall n: nat
      ensures NumberOk(s, n)
    {
    }
  }

  ghost predicate Reachable(s: State) {
    exists ts: set<Tid>, acts :: 2 * |ts| <= WORDS && Run(Initial(ts), acts) == Step(s)
  }

  lemma ReachableInv(s: State)
    requires Reachable(s)
    ensures Inv(s) && FewThreads(s)
  {
    var ts: set<Tid>, acts :| 2 * |ts| <= WORDS && Run(Initial(ts), acts) == Step(s);
    InitialInv(ts);
    RunInv(Initial(ts), acts);
  }

  // ------------------------------------------------------------------ the promises

  /** At most one thread is past the ticket wait and before serving++. */
  lemma Exclusion(s: State, t: Tid, u: Tid)
    requires Reachable(s) && t in s.pc && u in s.pc && Holds(s.pc[t]) && Holds(s.pc[u])
    ensures t == u
  {
    ReachableInv(s);
    Alone(s, t, u);
  }

  /** The tickets out are exactly the numbers from served up to issued, each in one hand; memory has their words. */
  lemma OutstandingExact(s: State, n: nat)
    requires Reachable(s)
    ensures s.served <= n < s.issued <==> exists t :: t in s.pc && n in Tickets(s.pc[t])
    ensures forall t, u :: t in s.pc && u in s.pc && n in Tickets(s.pc[t]) && n in Tickets(s.pc[u]) ==> t == u
    ensures s.next == s.issued % WORDS && s.serving == s.served % WORDS
  {
    ReachableInv(s);
    assert NumberOk(s, n);
    forall t | t in s.pc && n in Tickets(s.pc[t])
      ensures s.served <= n < s.issued
    {
      assert PcOk(s, t);
    }
    forall t, u | t in s.pc && u in s.pc && n in Tickets(s.pc[t]) && n in Tickets(s.pc[u])
      ensures t == u
    {
      assert TicketOk(s, t, u);
    }
  }

  /** Threads enter in the order of their tickets: the k-th to enter has ticket k. */
  lemma TicketOrder(s: State, i: nat)
    requires Reachable(s) && i < |s.entries|
    ensures s.entries[i] == i
  {
    ReachableInv(s);
  }

  /** A thread that reads its own tid in owner_tid when it calls mutex_lock holds the lock. */
  lemma OwnerHolds(s: State, t: Tid)
    requires Reachable(s) && t in s.pc && s.owner == Some(t) && !s.pc[t].UnlockClear?
    ensures Holds(s.pc[t])
    ensures !s.pc[t].Check?
  {
    ReachableInv(s);
  }

  // ------------------------------------------------------------------ the late store

  ghost predicate NoClearPending(s: State) {
    forall u :: u in s.pc ==> !s.pc[u].UnlockClear?
  }

  /** t holds the lock under its name, and no unlock is about to overwrite that. */
  ghost predicate Undisturbed(s: State, t: Tid) {
    t in s.pc && Named(s.pc[t]) && !s.late && NoClearPending(s)
  }

  lemma UndisturbedStays(s: State, a: Action, t: Tid)
    requires Inv(s) && FewThreads(s) && Undisturbed(s, t) && Next(s, a).Step?
    requires t in Next(s, a).s.pc && Named(Next(s, a).s.pc[t])
    ensures Undisturbed(Next(s, a).s, t)
  {
    if a.t in s.pc && s.pc[a.t].UnlockStore? {
      Alone(s, a.t, t);
    }
  }

  predicate HoldsThroughout(s: State, acts: seq<Action>, t: Tid)
    decreases |acts|
  {
    && t in s.pc && Named(s.pc[t])
    && (acts == []
        || match Next(s, acts[0])
           case Step(s') => HoldsThroughout(s', acts[1..], t)
           case Disabled => HoldsThroughout(s, acts[1..], t)
           case Panic(_) => true)
  }

  /** When no other unlock is under way as a thread stores its tid, owner_tid names it for its whole turn, so
      its own unlock finds itself. */
  lemma {:induction false} OwnerWholeTurn(s: State, acts: seq<Action>, t: Tid)
    requires Inv(s) && FewThreads(s) && Undisturbed(s, t) && HoldsThroughout(s, acts, t) && Run(s, acts).Step?
    ensures var s' := Run(s, acts).s; s'.owner == Some(t) && (t in s'.pc && s'.pc[t].UnlockOwner? ==> GoStep(s', t).Step?)
    decreases |acts|
  {
    assert PcOk(s, t);
    if acts != [] {
      match Next(s, acts[0])
      case Step(s') =>
        StepInv(s, acts[0]);
        UndisturbedStays(s, acts[0], t);
        OwnerWholeTurn(s', acts[1..], t);
      case Disabled => OwnerWholeTurn(s, acts[1..], t);
    }
  }
}
