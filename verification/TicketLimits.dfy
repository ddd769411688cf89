/** Where mutex_unlock fails its caller: a late store of another unlock, and the end of the tickets. */
module TicketLimits {
  import opened Seqs
  import opened TicketMutex
  import opened TicketProofs

  ghost predicate Reaches(s: State, s': State) {
    exists acts :: Run(s, acts) == Step(s')
  }

  lemma {:induction false} RunConcat(s: State, a: seq<Action>, b: seq<Action>)
    requires Run(s, a).Step?
    ensures Run(s, a + b) == Run(Run(s, a).s, b)
    decreases |a|
  {
    if a == [] {
      assert a + b == b;
    } else {
      assert (a + b)[1..] == a[1..] + b && (a + b)[0] == a[0];
      match Next(s, a[0])
      case Step(s') => RunConcat(s', a[1..], b);
      case Disabled => RunConcat(s, a[1..], b);
    }
  }

  lemma ReachesBoth(s: State, s1: State, s2: State)
    requires Reaches(s, s1) && Reaches(s1, s2)
    ensures Reaches(s, s2)
  {
    var a :| Run(s, a) == Step(s1);
    var b :| Run(s1, b) == Step(s2);
    RunConcat(s, a, b);
    assert Run(s, a + b) == Step(s2);
  }

  lemma Starts(s: State)
    ensures Reaches(s, s)
  {
    assert Run(s, []) == Step(s);
  }

  lemma Then(s: State, s1: State, a: Action, s2: State)
    requires Reaches(s, s1) && Next(s1, a) == Step(s2)
    ensures Reaches(s, s2)
  {
    assert Run(s2, [a][1..]) == Step(s2);
    assert Run(s1, [a]) == Step(s2);
    ReachesBoth(s, s1, s2);
  }

  // ------------------------------------------------------------------ the late store

  /** After t stores its tid it holds the lock through `acts`, and then its unlock does not find itself. */
  ghost predicate Spoils(s: State, t: Tid, acts: seq<Action>) {
    var o := Next(s, Go(t));
    && o.Step? && HoldsThroughout(o.s, acts, t) && Run(o.s, acts).Step?
    && var s' := Run(o.s, acts).s; t in s'.pc && s'.pc[t].UnlockOwner? && GoStep(s', t) == Panic(NotOwner)
  }

  lemma ClearSpoils(s: State, t: Tid, u: Tid)
    requires t in s.pc && s.pc[t].Enter? && u in s.pc && s.pc[u].UnlockClear?
    ensures Spoils(s, t, [Go(u), Unlock(t)])
  {
    var n := s.pc[t].n;
    var s1 := Next(s, Go(t)).s;
    assert s1.pc[t] == In(n) && s1.pc[u] == UnlockClear && Named(s1.pc[t]);
    var s2 := Next(s1, Go(u)).s;
    assert s2.owner == None && s2.pc[t] == In(n);
    var s3 := Next(s2, Unlock(t)).s;
    assert [Go(u), Unlock(t)][1..] == [Unlock(t)] && [Unlock(t)][1..] == [];
    assert Run(s3, []) == Step(s3) && Run(s2, [Unlock(t)]) == Step(s3) && Run(s1, [Go(u), Unlock(t)]) == Step(s3);
    assert HoldsThroughout(s3, [], t) && HoldsThroughout(s2, [Unlock(t)], t)
           && HoldsThroughout(s1, [Go(u), Unlock(t)], t);
  }

  lemma NoneSpoils(s: State, t: Tid, acts: seq<Action>)
    requires Inv(s) && FewThreads(s) && t in s.pc && s.pc[t].Enter? && NoClearPending(s)
    ensures !Spoils(s, t, acts)
  {
    var s1 := Next(s, Go(t)).s;
    StepInv(s, Go(t));
    if HoldsThroughout(s1, acts, t) && Run(s1, acts).Step? {
      OwnerWholeTurn(s1, acts, t);
    }
  }

  /** A thread that has just stored its tid may find it gone in its own unlock if and only if the last store of
      another unlock is still to come. */
  lemma OwnerSpoiledIff(s: State, t: Tid)
    requires Inv(s) && FewThreads(s) && t in s.pc && s.pc[t].Enter?
    ensures (exists acts :: Spoils(s, t, acts)) <==> exists u :: u in s.pc && s.pc[u].UnlockClear?
  {
    if u :| u in s.pc && s.pc[u].UnlockClear? {
      ClearSpoils(s, t, u);
    } else {
      forall acts
        ensures !Spoils(s, t, acts)
      {
        NoneSpoils(s, t, acts);
      }
    }
  }

  function Two(next: nat, serving: nat, owner: Option<Tid>, pc1: Pc, pc2: Pc, issued: nat, served: nat,
               entries: seq<nat>): State {
    State(next, serving, owner, map[1 := pc1, 2 := pc2], issued, served, entries, false)
  }

  lemma OneTakes()
    ensures Reaches(Initial({1, 2}), Two(0, 0, None, Take, Out, 0, 0, []))
  {
    var s := Initial({1, 2});
    assert s.pc == map[1 := Out, 2 := Out];
    Starts(s);
    Then(s, s, Lock(1), Two(0, 0, None, Check, Out, 0, 0, []));
    Then(s, Two(0, 0, None, Check, Out, 0, 0, []), Go(1), Two(0, 0, None, Take, Out, 0, 0, []));
  }

  lemma OneIn()
    ensures Reaches(Two(0, 0, None, Take, Out, 0, 0, []), Two(1, 0, Some(1), In(0), Out, 1, 0, [0]))
  {
    var s := Two(0, 0, None, Take, Out, 0, 0, []);
    Starts(s);
    Then(s, s, Go(1), Two(1, 0, None, Spin(0), Out, 1, 0, []));
    Then(s, Two(1, 0, None, Spin(0), Out, 1, 0, []), Go(1), Two(1, 0, None, Enter(0), Out, 1, 0, [0]));
    Then(s, Two(1, 0, None, Enter(0), Out, 1, 0, [0]), Go(1), Two(1, 0, Some(1), In(0), Out, 1, 0, [0]));
  }

  lemma BothIn()
    ensures Reaches(Two(1, 0, Some(1), In(0), Out, 1, 0, [0]), Two(2, 0, Some(1), In(0), Spin(1), 2, 0, [0]))
  {
    var s := Two(1, 0, Some(1), In(0), Out, 1, 0, [0]);
    Starts(s);
    Then(s, s, Lock(2), Two(1, 0, Some(1), In(0), Check, 1, 0, [0]));
    Then(s, Two(1, 0, Some(1), In(0), Check, 1, 0, [0]), Go(2), Two(1, 0, Some(1), In(0), Take, 1, 0, [0]));
    Then(s, Two(1, 0, Some(1), In(0), Take, 1, 0, [0]), Go(2), Two(2, 0, Some(1), In(0), Spin(1), 2, 0, [0]));
  }

  lemma Unlocking()
    ensures Reaches(Two(2, 0, Some(1), In(0), Spin(1), 2, 0, [0]), Two(2, 0, Some(1), UnlockNext(0, 0), Spin(1), 2, 0, [0]))
  {
    var s := Two(2, 0, Some(1), In(0), Spin(1), 2, 0, [0]);
    Starts(s);
    Then(s, s, Unlock(1), Two(2, 0, Some(1), UnlockOwner(0), Spin(1), 2, 0, [0]));
    Then(s, Two(2, 0, Some(1), UnlockOwner(0), Spin(1), 2, 0, [0]), Go(1), Two(2, 0, Some(1), UnlockServing(0), Spin(1), 2, 0, [0]));
    Then(s, Two(2, 0, Some(1), UnlockServing(0), Spin(1), 2, 0, [0]), Go(1), Two(2, 0, Some(1), UnlockNext(0, 0), Spin(1), 2, 0, [0]));
  }

  lemma Storing()
    ensures Reaches(Two(2, 0, Some(1), UnlockNext(0, 0), Spin(1), 2, 0, [0]), Two(2, 0, Some(1), UnlockStore(0, 0), Spin(1), 2, 0, [0]))
  {
    var s := Two(2, 0, Some(1), UnlockNext(0, 0), Spin(1), 2, 0, [0]);
    Starts(s);
    Then(s, s, Go(1), Two(2, 0, Some(1), UnlockLoad(0), Spin(1), 2, 0, [0]));
    Then(s, Two(2, 0, Some(1), UnlockLoad(0), Spin(1), 2, 0, [0]), Go(1), Two(2, 0, Some(1), UnlockStore(0, 0), Spin(1), 2, 0, [0]));
  }

  /** Thread 1 has passed the lock on and has yet to clear owner_tid; thread 2 has seen its turn. */
  lemma PassedOn()
    ensures Reaches(Two(2, 0, Some(1), UnlockStore(0, 0), Spin(1), 2, 0, [0]),
                    Two(2, 1, Some(1), UnlockClear, Enter(1), 2, 1, [0, 1]))
  {
    var s := Two(2, 0, Some(1), UnlockStore(0, 0), Spin(1), 2, 0, [0]);
    Starts(s);
    Then(s, s, Go(1), Two(2, 1, Some(1), UnlockClear, Spin(1), 2, 1, [0]));
    assert [0] + [1] == [0, 1];
    Then(s, Two(2, 1, Some(1), UnlockClear, Spin(1), 2, 1, [0]), Go(2), Two(2, 1, Some(1), UnlockClear, Enter(1), 2, 1, [0, 1]));
  }

  /** Thread 1 passes the lock on; thread 2 enters and stores its tid; the last store of thread 1's unlock
      erases it; thread 2 holds the lock and cannot give it back. */
  lemma LateClearFails() returns (s: State, acts: seq<Action>)
    ensures Reachable(s) && 2 in s.pc && s.pc[2].Enter? && Spoils(s, 2, acts)
  {
    OneTakes();
    OneIn();
    BothIn();
    Unlocking();
    Storing();
    PassedOn();
    s := Two(2, 1, Some(1), UnlockClear, Enter(1), 2, 1, [0, 1]);
    ReachesBoth(Two(2, 0, Some(1), UnlockNext(0, 0), Spin(1), 2, 0, [0]), Two(2, 0, Some(1), UnlockStore(0, 0), Spin(1), 2, 0, [0]), s);
    ReachesBoth(Two(2, 0, Some(1), In(0), Spin(1), 2, 0, [0]), Two(2, 0, Some(1), UnlockNext(0, 0), Spin(1), 2, 0, [0]), s);
    ReachesBoth(Two(1, 0, Some(1), In(0), Out, 1, 0, [0]), Two(2, 0, Some(1), In(0), Spin(1), 2, 0, [0]), s);
    ReachesBoth(Two(0, 0, None, Take, Out, 0, 0, []), Two(1, 0, Some(1), In(0), Out, 1, 0, [0]), s);
    ReachesBoth(Initial({1, 2}), Two(0, 0, None, Take, Out, 0, 0, []), s);
    ClearSpoils(s, 2, 1);
    acts := [Go(1), Unlock(2)];
  }

  // ------------------------------------------------------------------ the end of the tickets

  /** Past the affirms of an unlock. */
  predicate PastAffirms(pc: Pc) {
    pc.UnlockLoad? || pc.UnlockStore?
  }

  ghost predicate BeforeLast(s: State, t: Tid) {
    t in s.pc && PastAffirms(s.pc[t]) ==> s.pc[t].n + 1 < WORDS
  }

  ghost predicate NotYetLast(s: State) {
    s.served < WORDS && forall t {:trigger BeforeLast(s, t)} :: BeforeLast(s, t)
  }

  /** The unlock of the acquisition with the highest word fails its second affirm, whenever it gets there. */
  lemma LastTicketFails(s: State, t: Tid)
    requires Inv(s) && t in s.pc && s.pc[t].UnlockNext? && s.pc[t].n == WORDS - 1 && s.issued < 2 * WORDS
    ensures GoStep(s, t) == Panic(NotLocked)
  {
    assert PcOk(s, t) && s.pc[t].n in Tickets(s.pc[t]);
  }

  lemma FewIssued(s: State)
    requires Inv(s) && FewThreads(s) && s.served < WORDS
    ensures s.issued < 2 * WORDS
  {
    FewTickets(s);
  }

  lemma StepNotLast(s: State, a: Action)
    requires Inv(s) && FewThreads(s) && NotYetLast(s) && Next(s, a).Step?
    ensures NotYetLast(Next(s, a).s)
  {
    var s' := Next(s, a).s;
    FewIssued(s);
    assert PcOk(s, a.t) && BeforeLast(s, a.t);
    if s.pc[a.t].UnlockNext? {
      assert s.pc[a.t].n in Tickets(s.pc[a.t]);
      if s.pc[a.t].n == WORDS - 1 {
        LastTicketFails(s, a.t);
      }
    }
    forall u
      ensures BeforeLast(s', u)
    {
      assert BeforeLast(s, u);
    }
  }

  lemma {:induction false} RunNotLast(s: State, acts: seq<Action>)
    requires Inv(s) && FewThreads(s) && NotYetLast(s) && Run(s, acts).Step?
    ensures NotYetLast(Run(s, acts).s)
    decreases |acts|
  {
    if acts != [] {
      match Next(s, acts[0])
      case Step(s') =>
        StepInv(s, acts[0]);
        StepNotLast(s, acts[0]);
        RunNotLast(s', acts[1..]);
      case Disabled => RunNotLast(s, acts[1..]);
    }
  }

  /** A mutex is unlocked 2^32 - 1 times at most: under every interleaving the unlock of the 2^32-th
      acquisition fails its second affirm. */
  lemma MutexWearsOut(s: State)
    requires Reachable(s)
    ensures s.served < WORDS
    ensures forall t :: t in s.pc && s.pc[t].UnlockNext? && s.pc[t].n == WORDS - 1 ==> GoStep(s, t) == Panic(NotLocked)
  {
    var ts: set<Tid>, acts :| 2 * |ts| <= WORDS && Run(Initial(ts), acts) == Step(s);
    InitialInv(ts);
    forall t
      ensures BeforeLast(Initial(ts), t)
    {
    }
    RunInv(Initial(ts), acts);
    RunNotLast(Initial(ts), acts);
    FewIssued(s);
    forall t | t in s.pc && s.pc[t].UnlockNext? && s.pc[t].n == WORDS - 1
      ensures GoStep(s, t) == Panic(NotLocked)
    {
      LastTicketFails(s, t);
    }
  }

  function UpTo(k: nat): (r: seq<nat>)
    ensures |r| == k
  {
    seq(k, i => i)
  }

  /** One thread alone. */
  function Turning(t: Tid, issued: nat, served: nat, owner: Option<Tid>, pc: Pc, entered: nat): State {
    State(issued % WORDS, served % WORDS, owner, map[t := pc], issued, served, UpTo(entered), false)
  }

  function Rest(t: Tid, k: nat): State {
    Turning(t, k, k, None, Out, k)
  }

  /** ... holding the lock, about to compare serving with next_ticket. */
  function AtAffirm(t: Tid, k: nat): State {
    Turning(t, k + 1, k, Some(t), UnlockNext(k, k % WORDS), k + 1)
  }

  lemma TurnReaches(t: Tid, k: nat)
    requires k < WORDS
    ensures Reaches(Rest(t, k), AtAffirm(t, k))
  {
    LockReaches(t, k);
    UnlockReaches(t, k);
    ReachesBoth(Rest(t, k), Turning(t, k + 1, k, Some(t), In(k), k + 1), AtAffirm(t, k));
  }

  lemma LockReaches(t: Tid, k: nat)
    requires k < WORDS
    ensures Reaches(Rest(t, k), Turning(t, k + 1, k, Some(t), In(k), k + 1))
  {
    var s := Rest(t, k);
    Starts(s);
    Then(s, s, Lock(t), Turning(t, k, k, None, Check, k));
    Then(s, Turning(t, k, k, None, Check, k), Go(t), Turning(t, k, k, None, Take, k));
    Then(s, Turning(t, k, k, None, Take, k), Go(t), Turning(t, k + 1, k, None, Spin(k), k));
    assert UpTo(k) + [k] == UpTo(k + 1);
    Then(s, Turning(t, k + 1, k, None, Spin(k), k), Go(t), Turning(t, k + 1, k, None, Enter(k), k + 1));
    Then(s, Turning(t, k + 1, k, None, Enter(k), k + 1), Go(t), Turning(t, k + 1, k, Some(t), In(k), k + 1));
  }

  lemma UnlockReaches(t: Tid, k: nat)
    requires k < WORDS
    ensures Reaches(Turning(t, k + 1, k, Some(t), In(k), k + 1), AtAffirm(t, k))
  {
    var s := Turning(t, k + 1, k, Some(t), In(k), k + 1);
    Starts(s);
    Then(s, s, Unlock(t), Turning(t, k + 1, k, Some(t), UnlockOwner(k), k + 1));
    Then(s, Turning(t, k + 1, k, Some(t), UnlockOwner(k), k + 1), Go(t),
         Turning(t, k + 1, k, Some(t), UnlockServing(k), k + 1));
    Then(s, Turning(t, k + 1, k, Some(t), UnlockServing(k), k + 1), Go(t), AtAffirm(t, k));
  }

  lemma RestReaches(t: Tid, k: nat)
    requires k + 1 < WORDS
    ensures Reaches(AtAffirm(t, k), Rest(t, k + 1))
  {
    var s := AtAffirm(t, k);
    Starts(s);
    Then(s, s, Go(t), Turning(t, k + 1, k, Some(t), UnlockLoad(k), k + 1));
    Then(s, Turning(t, k + 1, k, Some(t), UnlockLoad(k), k + 1), Go(t),
         Turning(t, k + 1, k, Some(t), UnlockStore(k, k % WORDS), k + 1));
    Then(s, Turning(t, k + 1, k, Some(t), UnlockStore(k, k % WORDS), k + 1), Go(t),
         Turning(t, k + 1, k + 1, Some(t), UnlockClear, k + 1));
    Then(s, Turning(t, k + 1, k + 1, Some(t), UnlockClear, k + 1), Go(t), Rest(t, k + 1));
  }

  lemma {:induction false} ManyTurns(t: Tid, k: nat)
    requires k < WORDS
    ensures Reaches(Initial({t}), Rest(t, k))
  {
    if k == 0 {
      assert Initial({t}).pc == map[t := Out];
      Starts(Initial({t}));
    } else {
      ManyTurns(t, k - 1);
      TurnReaches(t, k - 1);
      RestReaches(t, k - 1);
      ReachesBoth(Initial({t}), Rest(t, k - 1), AtAffirm(t, k - 1));
      ReachesBoth(Initial({t}), AtAffirm(t, k - 1), Rest(t, k));
    }
  }

  /** One thread that locks and unlocks gets there: its 2^32-th unlock fails. */
  lemma LastUnlockFails(t: Tid) returns (s: State)
    ensures Reachable(s) && t in s.pc && s.pc[t].UnlockNext? && GoStep(s, t) == Panic(NotLocked)
    ensures s.served == WORDS - 1
  {
    ManyTurns(t, WORDS - 1);
    TurnReaches(t, WORDS - 1);
    s := AtAffirm(t, WORDS - 1);
    ReachesBoth(Initial({t}), Rest(t, WORDS - 1), s);
    assert |{t}| == 1;
  }
}
