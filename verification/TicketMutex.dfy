/** The user-level ticket mutex (p3/user/libthread/mutex.c), one memory access at a time.  Tickets are 32-bit
    words that wrap; `issued` and `served` count acquisitions without wrapping. */
module TicketMutex {
  import opened Seqs

  type Tid = nat

  /** Values of a uint32_t. */
  const WORDS: nat := 0x1_0000_0000

  /** What a thread does next.  `n` is the number of its ticket, of which memory holds n % WORDS. */
  datatype Pc =
    | Out
    | Check                       // mutex_lock: read owner_tid
    | Take                        // add_one_atomic(&next_ticket)
    | Spin(n: nat)                // compare the ticket with serving
    | Enter(n: nat)               // store owner_tid
    | In(n: nat)                  // between mutex_lock and mutex_unlock
    | Recheck(n: nat)             // mutex_lock by the holder: read owner_tid
    | Retake(n: nat)              // ... which did not find itself there: take another ticket
    | Stuck(n: nat, m: nat)       // ... and wait for its own unlock
    | UnlockOwner(n: nat)         // mutex_unlock: read owner_tid
    | UnlockServing(n: nat)       // read serving for the affirm
    | UnlockNext(n: nat, v: nat)  // read next_ticket for the affirm
    | UnlockLoad(n: nat)          // serving++: load
    | UnlockStore(n: nat, v: nat) // serving++: store
    | UnlockClear                 // owner_tid = -1

  /** `entries` is history: the tickets in the order their threads got past the loop.  `late`: since the
      holder stored its tid, another thread's unlock has overwritten it. */
  datatype State = State(next: nat, serving: nat, owner: Option<Tid>, pc: map<Tid, Pc>,
                         issued: nat, served: nat, entries: seq<nat>, late: bool)

  datatype Reason = NotOwner | NotLocked

  datatype Outcome = Step(s: State) | Disabled | Panic(why: Reason)

  datatype Action = Lock(t: Tid) | Unlock(t: Tid) | Go(t: Tid)

  function At(s: State, t: Tid, pc: Pc): State {
    s.(pc := s.pc[t := pc])
  }

  /** add_one_atomic returns the value before the addition. */
  function TakeTicket(s: State, t: Tid, pc: Pc): State {
    At(s, t, pc).(next := (s.next + 1) % WORDS, issued := s.issued + 1)
  }

  function GoStep(s: State, t: Tid): Outcome
    requires t in s.pc
  {
    match s.pc[t]
    case Out => Disabled
    case Check => Step(At(s, t, if s.owner == Some(t) then Out else Take))
    case Take => Step(TakeTicket(s, t, Spin(s.issued)))
    case Spin(n) => if n % WORDS == s.serving then Step(At(s, t, Enter(n)).(entries := s.entries + [n])) else Step(s)
    case Enter(n) => Step(At(s, t, In(n)).(owner := Some(t), late := false))
    case In(_) => Disabled
    case Recheck(n) => Step(At(s, t, if s.owner == Some(t) then In(n) else Retake(n)))
    case Retake(n) => Step(TakeTicket(s, t, Stuck(n, s.issued)))
    case Stuck(n, m) => if m % WORDS == s.serving then Step(At(s, t, Enter(m)).(entries := s.entries + [m])) else Step(s)
    case UnlockOwner(n) => if s.owner == Some(t) then Step(At(s, t, UnlockServing(n))) else Panic(NotOwner)
    case UnlockServing(n) => Step(At(s, t, UnlockNext(n, s.serving)))
    case UnlockNext(n, v) => if v < s.next then Step(At(s, t, UnlockLoad(n))) else Panic(NotLocked)
    case UnlockLoad(n) => Step(At(s, t, UnlockStore(n, s.serving)))
    case UnlockStore(n, v) => Step(At(s, t, UnlockClear).(serving := (v + 1) % WORDS, served := s.served + 1))
    case UnlockClear => Step(At(s, t, Out).(owner := None, late := s.late || Held(s)))
  }

  /** Some thread has stored its tid and still holds the lock. */
  predicate Held(s: State) {
    exists t :: t in s.pc && Named(s.pc[t])
  }

  function Next(s: State, a: Action): Outcome {
    if a.t !in s.pc then Disabled
    else
      match a
      case Lock(t) =>
        if s.pc[t].Out? then Step(At(s, t, Check))
        else if s.pc[t].In? then Step(At(s, t, Recheck(s.pc[t].n)))
        else Disabled
      case Unlock(t) => if s.pc[t].In? then Step(At(s, t, UnlockOwner(s.pc[t].n))) else Disabled
      case Go(t) => GoStep(s, t)
  }

  function Run(s: State, acts: seq<Action>): Outcome
    decreases |acts|
  {
    if acts == [] then Step(s)
    else
      match Next(s, acts[0])
      case Step(s') => Run(s', acts[1..])
      case Disabled => Run(s, acts[1..])
      case Panic(why) => Panic(why)
  }

  function Initial(ts: set<Tid>): State {
    State(0, 0, None, map t | t in ts :: Out, 0, 0, [], false)
  }

  // ------------------------------------------------------------------ tickets

  /** The tickets a thread took and whose turn is not over. */
  function Tickets(pc: Pc): set<nat> {
    match pc
    case Spin(n) => {n}
    case Enter(n) => {n}
    case In(n) => {n}
    case Recheck(n) => {n}
    case Retake(n) => {n}
    case Stuck(n, m) => {n, m}
    case UnlockOwner(n) => {n}
    case UnlockServing(n) => {n}
    case UnlockNext(n, _) => {n}
    case UnlockLoad(n) => {n}
    case UnlockStore(n, _) => {n}
    case _ => {}
  }

  /** The thread is past the ticket wait and has not done serving++. */
  predicate Holds(pc: Pc) {
    pc.Enter? || Named(pc)
  }

  /** ... and has stored its tid. */
  predicate Named(pc: Pc) {
    pc.In? || pc.Recheck? || pc.Retake? || pc.Stuck? || pc.UnlockOwner? || pc.UnlockServing? || pc.UnlockNext?
    || pc.UnlockLoad? || pc.UnlockStore?
  }

  /** The ticket of a thread that waits for the lock or holds it. */
  function Turn(pc: Pc): nat
    requires pc.Spin? || Holds(pc)
  {
    pc.n
  }

  ghost predicate PcOk(s: State, t: Tid) {
    t in s.pc ==>
      && (forall n :: n in Tickets(s.pc[t]) ==> s.served <= n < s.issued)
      && (Holds(s.pc[t]) ==> Turn(s.pc[t]) == s.served)
      && (s.pc[t].Stuck? ==> s.pc[t].n < s.pc[t].m)
      && (s.pc[t].UnlockStore? ==> s.pc[t].v == s.serving)
      && (s.pc[t].UnlockNext? ==> s.pc[t].v == s.serving)
      && (Named(s.pc[t]) ==> s.owner == if s.late then None else Some(t))
  }

  /** No ticket is in two hands. */
  ghost predicate TicketOk(s: State, t: Tid, u: Tid) {
    t in s.pc && u in s.pc && t != u ==> Tickets(s.pc[t]) !! Tickets(s.pc[u])
  }

  ghost predicate Taken(s: State, n: nat) {
    exists t :: t in s.pc && n in Tickets(s.pc[t])
  }

  ghost predicate NumberOk(s: State, n: nat) {
    s.served <= n < s.issued ==> Taken(s, n)
  }

  /** The owner is past the store of its tid and before the store that clears it. */
  ghost predicate OwnerOk(s: State) {
    s.owner.Some? ==> s.owner.value in s.pc && (Named(s.pc[s.owner.value]) || s.pc[s.owner.value].UnlockClear?)
  }

  ghost predicate EntriesOk(s: State) {
    && (forall i :: 0 <= i < |s.entries| ==> s.entries[i] == i)
    && s.served <= |s.entries| <= s.served + 1
    && (|s.entries| == s.served + 1 <==> exists t :: t in s.pc && Holds(s.pc[t]))
  }

  ghost predicate Inv(s: State) {
    && s.next == s.issued % WORDS && s.serving == s.served % WORDS && s.served <= s.issued
    && (forall t {:trigger PcOk(s, t)} :: PcOk(s, t))
    && (forall t, u {:trigger TicketOk(s, t, u)} :: TicketOk(s, t, u))
    && (forall n {:trigger NumberOk(s, n)} :: NumberOk(s, n))
    && OwnerOk(s) && EntriesOk(s)
  }

  // ------------------------------------------------------------------ how many tickets

  function AllTickets(s: State, ts: set<Tid>): set<nat> {
    set t, n | t in ts && t in s.pc && n in Tickets(s.pc[t]) :: n
  }

  lemma TwoAtMost(pc: Pc)
    ensures |Tickets(pc)| <= 2
  {
  }

  lemma SubsetSize(a: set<nat>, b: set<nat>)
    requires a <= b
    ensures |a| <= |b|
  {
    var c := b - a;
    assert b == a + c;
  }

  lemma {:induction false} TicketsPerThread(s: State, ts: set<Tid>)
    ensures |AllTickets(s, ts)| <= 2 * |ts|
    decreases |ts|
  {
    if ts == {} {
      assert AllTickets(s, ts) == {};
    } else {
      var t :| t in ts;
      TicketsPerThread(s, ts - {t});
      var mine := if t in s.pc then Tickets(s.pc[t]) else {};
      TwoAtMost(if t in s.pc then s.pc[t] else Out);
      assert AllTickets(s, ts) == AllTickets(s, ts - {t}) + mine;
    }
  }

  function Numbers(lo: nat, hi: nat): (r: set<nat>)
    ensures forall n :: n in r <==> lo <= n < hi
    decreases hi
  {
    if lo >= hi then {} else Numbers(lo, hi - 1) + {hi - 1}
  }

  lemma {:induction false} NumbersSize(lo: nat, hi: nat)
    requires lo <= hi
    ensures |Numbers(lo, hi)| == hi - lo
    decreases hi
  {
    if lo == hi {
      assert Numbers(lo, hi) == {};
    } else {
      NumbersSize(lo, hi - 1);
      assert hi - 1 !in Numbers(lo, hi - 1);
    }
  }

  /** At most two tickets a thread are out at a time. */
  lemma FewTickets(s: State)
    requires Inv(s)
    ensures s.issued - s.served <= 2 * |s.pc.Keys|
  {
    var all := AllTickets(s, s.pc.Keys);
    forall n | n in Numbers(s.served, s.issued)
      ensures n in all
    {
      assert NumberOk(s, n);
    }
    NumbersSize(s.served, s.issued);
    SubsetSize(Numbers(s.served, s.issued), all);
    TicketsPerThread(s, s.pc.Keys);
  }

  /** Fewer threads than half the words: a thread's ticket is up exactly when its number is. */
  ghost predicate FewThreads(s: State) {
    2 * |s.pc.Keys| <= WORDS
  }

  lemma UpMeansTurn(s: State, n: nat)
    requires Inv(s) && FewThreads(s) && s.served <= n < s.issued
    ensures n % WORDS == s.serving <==> n == s.served
  {
    FewTickets(s);
  }
}
