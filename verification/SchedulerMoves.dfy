/** The other ways a thread changes queues: blocking, parking, and being taken off a mutex. */
module SchedulerMoves {
  import opened Seqs
  import opened Scheduler
  import opened SchedulerInvariant
  import opened SchedulerQueues

  // ------------------------------------------------------------------ steps that move nobody

  ghost predicate SameWaiters(s: State, s': State, m: Mid) {
    && (m in s.mutexes <==> m in s'.mutexes)
    && (m in s.mutexes ==> s'.mutexes[m].waiters == s.mutexes[m].waiters)
  }

  ghost predicate SameWaking(s: State, s': State, x: Tid) {
    && (x in s.pc && s.pc[x].Waking? ==> x in s'.pc && s'.pc[x] == s.pc[x])
    && (x in s'.pc && s'.pc[x].Waking? ==> x in s.pc && s'.pc[x] == s.pc[x])
  }

  ghost predicate SameQueues(s: State, s': State) {
    && s'.running == s.running && s'.runq == s.runq && s'.status == s.status
    && s'.sleepq == s.sleepq && s'.parked == s.parked && s'.sleepMux == s.sleepMux
    && s'.pc.Keys == s.pc.Keys && s'.expiry.Keys == s.expiry.Keys
    && (forall m {:trigger SameWaiters(s, s', m)} :: SameWaiters(s, s', m))
    && (forall x {:trigger SameWaking(s, s', x)} :: SameWaking(s, s', x))
    && ScanCarries(s') == ScanCarries(s)
  }

  lemma SameKeeps(s: State, s': State, h: Homes, hole: Option<Tid>)
    requires QueuesOk(s, h, hole) && SameQueues(s, s')
    ensures QueuesOk(s', h, hole)
  {
    assert SameWaiters(s, s', s.sleepMux);
    forall m
      ensures NoDupAt(s', m)
    {
      assert NoDupAt(s, m) && SameWaiters(s, s', m);
    }
    forall t | t in s'.status
      ensures HomeOk(s', h, hole, t)
    {
      assert HomeOk(s, h, hole, t);
      match h[t]
      case OnMutex(m) => assert SameWaiters(s, s', m);
      case Carried(x) => assert SameWaking(s, s', x);
      case _ =>
    }
    SameLists(s, s', h, hole);
  }

  lemma SameLists(s: State, s': State, h: Homes, hole: Option<Tid>)
    requires QueuesOk(s, h, hole) && SameQueues(s, s')
    ensures forall t :: ListsOk(s', h, t)
    ensures forall m, t :: WaitersOk(s', h, m, t)
    ensures forall x :: CarryOk(s', h, x)
  {
    forall t
      ensures ListsOk(s', h, t)
    {
      assert ListsOk(s, h, t);
    }
    forall m, t
      ensures WaitersOk(s', h, m, t)
    {
      assert WaitersOk(s, h, m, t) && SameWaiters(s, s', m);
    }
    forall x
      ensures CarryOk(s', h, x)
    {
      assert CarryOk(s, h, x) && SameWaking(s, s', x);
    }
  }

  /** A step that touches one mutex's owner, one program counter or a date moves nobody. */
  lemma SameByMutex(s: State, m: Mid, x: Mutex)
    requires m in s.mutexes && x.waiters == s.mutexes[m].waiters
    ensures SameQueues(s, WithMutex(s, m, x))
  {
    var s' := WithMutex(s, m, x);
    forall k
      ensures SameWaiters(s, s', k)
    {
    }
    forall y
      ensures SameWaking(s, s', y)
    {
    }
  }

  lemma SameByPc(s: State, t: Tid, pc: Pc)
    requires t in s.pc && !s.pc[t].Waking? && !pc.Waking?
    ensures SameQueues(s, WithPc(s, t, pc))
  {
    var s' := WithPc(s, t, pc);
    forall k
      ensures SameWaiters(s, s', k)
    {
    }
    forall y
      ensures SameWaking(s, s', y)
    {
    }
  }

  lemma SameByIndex(s: State, ticks: nat, earliest: nat, expiry: map<Tid, nat>, scan: Option<Scan>)
    requires expiry.Keys == s.expiry.Keys
    requires var s' := s.(ticks := ticks, earliest := earliest, expiry := expiry, scan := scan);
             ScanCarries(s') == ScanCarries(s)
    ensures SameQueues(s, s.(ticks := ticks, earliest := earliest, expiry := expiry, scan := scan))
  {
    var s' := s.(ticks := ticks, earliest := earliest, expiry := expiry, scan := scan);
    forall k
      ensures SameWaiters(s, s', k)
    {
    }
    forall y
      ensures SameWaking(s, s', y)
    {
    }
  }

  lemma SameTrans(s: State, s': State, s'': State)
    requires SameQueues(s, s') && SameQueues(s', s'')
    ensures SameQueues(s, s'')
  {
    forall k
      ensures SameWaiters(s, s'', k)
    {
      assert SameWaiters(s, s', k) && SameWaiters(s', s'', k);
    }
    forall y
      ensures SameWaking(s, s'', y)
    {
      assert SameWaking(s, s', y) && SameWaking(s', s'', y);
    }
  }

  // ------------------------------------------------------------------ steps that move one thread

  ghost predicate OthersSame(s: State, s': State, u: Tid, t: Tid) {
    t != u ==>
      && (t in s.status <==> t in s'.status)
      && (t in s.status ==> s'.status[t] == s.status[t])
      && (t in s'.sleepq <==> t in s.sleepq)
      && (t in s'.parked <==> t in s.parked)
  }

  ghost predicate OthersWait(s: State, s': State, u: Tid, m: Mid, t: Tid) {
    && (m in s.mutexes <==> m in s'.mutexes)
    && (m in s.mutexes && t != u ==> (t in s'.mutexes[m].waiters <==> t in s.mutexes[m].waiters))
  }

  ghost predicate PcMoves(s: State, s': State, u: Tid, x: Tid) {
    && (x in s.pc <==> x in s'.pc)
    && (x in s.pc && s.pc[x] != s'.pc[x] ==>
          (s.pc[x].Waking? ==> s.pc[x].u == u) && (s'.pc[x].Waking? ==> s'.pc[x].u == u))
  }

  /** Nobody but `u` changes queue, and the runnable queue stays. */
  ghost predicate MovesOnly(s: State, s': State, u: Tid) {
    && s'.running == s.running && s'.runq == s.runq && s'.sleepMux == s.sleepMux && u in s.status
    && s'.status.Keys == s.status.Keys && s'.pc.Keys == s.pc.Keys && s'.expiry.Keys == s.expiry.Keys
    && (forall t {:trigger OthersSame(s, s', u, t)} :: OthersSame(s, s', u, t))
    && (forall m, t {:trigger OthersWait(s, s', u, m, t)} :: OthersWait(s, s', u, m, t))
    && (forall x {:trigger PcMoves(s, s', u, x)} :: PcMoves(s, s', u, x))
    && (ScanCarries(s') == ScanCarries(s) || (ScanCarries(s) in {None, Some(u)} && ScanCarries(s') in {None, Some(u)}))
  }

  /** A mutex queue that has `u` is the one `h` names. */
  ghost predicate OnNoOther(s: State, h: Homes, u: Tid) {
    forall m {:trigger WaitersOk(s, h, m, u)} :: WaitersOk(s, h, m, u)
  }

  /** Where `u` is afterwards. */
  ghost predicate Lands(s: State, h: Homes, hole: Option<Tid>, u: Tid) {
    && u in s.status && u in h && HomeOk(s, h, hole, u) && ListsOk(s, h, u)
    && NoDup(s.sleepq)
    && (forall m {:trigger NoDupAt(s, m)} :: NoDupAt(s, m))
    && OnNoOther(s, h, u)
    && (forall x {:trigger CarryOk(s, h, x)} :: x in s.pc && s.pc[x] == Waking(u) ==> CarryOk(s, h, x))
    && (ScanCarries(s) == Some(u) ==> h[u] == CarriedByScan)
  }

  lemma MoveHomes(s: State, s': State, h: Homes, hole: Option<Tid>, hole': Option<Tid>, u: Tid, home: Home)
    requires QueuesOk(s, h, hole) && MovesOnly(s, s', u) && Lands(s', h[u := home], hole', u)
    requires hole == hole' || (hole in {None, Some(u)} && hole' in {None, Some(u)})
    ensures forall t :: t in s'.status ==> HomeOk(s', h[u := home], hole', t)
  {
    var h' := h[u := home];
    forall t | t in s'.status
      ensures HomeOk(s', h', hole', t)
    {
      assert HomeOk(s, h, hole, t) && OthersSame(s, s', u, t);
      if t != u {
        match h[t]
        case OnMutex(m) => assert OthersWait(s, s', u, m, t);
        case Carried(x) => assert PcMoves(s, s', u, x);
        case _ =>
      }
    }
  }

  lemma MoveKeeps(s: State, s': State, h: Homes, hole: Option<Tid>, hole': Option<Tid>, u: Tid, home: Home)
    requires QueuesOk(s, h, hole) && MovesOnly(s, s', u) && Lands(s', h[u := home], hole', u)
    requires hole == hole' || (hole in {None, Some(u)} && hole' in {None, Some(u)})
    ensures QueuesOk(s', h[u := home], hole')
  {
    var h' := h[u := home];
    MoveHomes(s, s', h, hole, hole', u, home);
    assert OthersWait(s, s', u, s.sleepMux, u);
    forall t
      ensures ListsOk(s', h', t)
    {
      assert ListsOk(s, h, t) && OthersSame(s, s', u, t);
    }
    forall m, t
      ensures WaitersOk(s', h', m, t)
    {
      assert WaitersOk(s, h, m, t) && OthersWait(s, s', u, m, t);
    }
    forall x
      ensures CarryOk(s', h', x)
    {
      assert CarryOk(s, h, x) && PcMoves(s, s', u, x);
    }
  }

  // ------------------------------------------------------------------ the running thread leaves the processor

  /** store_tcb_in_mutex_queue */
  lemma EnqueueMoves(s: State, h: Homes, m: Mid)
    requires OneQueue(s, h) && m in s.mutexes
    ensures Stored(Enqueued(WithStatus(s, s.running, Blocked), m), h[s.running := OnMutex(m)])
  {
    var t := s.running;
    var s', h' := Enqueued(WithStatus(s, t, Blocked), m), h[t := OnMutex(m)];
    assert ListsOk(s, h, t) && WaitersOk(s, h, m, t) && NoDupAt(s, m);
    NoDupAppend(s.mutexes[m].waiters, t);
    forall k
      ensures NoDupAt(s', k) && WaitersOk(s', h', k, t)
    {
      assert NoDupAt(s, k) && WaitersOk(s, h, k, t);
    }
    MoveIsStored(s, s', h, OnMutex(m));
  }

  /** The frame of the moves below, from facts that are plain to see of each. */
  lemma MoveIsStored(s: State, s': State, h: Homes, home: Home)
    requires OneQueue(s, h) && home != Runs && !home.Carried?
    requires s'.running == s.running && s'.runq == s.runq && s'.pc == s.pc && s'.sleepMux == s.sleepMux
    requires s'.expiry == s.expiry && ScanCarries(s') == ScanCarries(s)
    requires s'.status.Keys == s.status.Keys && s'.mutexes.Keys == s.mutexes.Keys
    requires forall t :: OthersSame(s, s', s.running, t)
    requires forall m, t :: m in s.mutexes && t != s.running ==>
               (t in s'.mutexes[m].waiters <==> t in s.mutexes[m].waiters)
    requires NoDup(s'.sleepq) && (forall m :: NoDupAt(s', m))
    requires HomeOk(s', h[s.running := home], None, s.running) && ListsOk(s', h[s.running := home], s.running)
    requires OnNoOther(s', h[s.running := home], s.running)
    ensures Stored(s', h[s.running := home])
  {
    var t := s.running;
    forall m, x
      ensures OthersWait(s, s', t, m, x)
    {
    }
    forall x
      ensures PcMoves(s, s', t, x)
    {
    }
    forall x | x in s'.pc && s'.pc[x] == Waking(t)
      ensures CarryOk(s', h[t := home], x)
    {
      assert CarryOk(s, h, x);
    }
    MoveKeeps(s, s', h, None, None, t, home);
  }

  /** store_tcb_in_sleep_queue */
  lemma SleepMoves(s: State, h: Homes)
    requires OneQueue(s, h)
    ensures Stored(StoredAsleep(WithStatus(s, s.running, Blocked)), h[s.running := Asleep])
  {
    var t := s.running;
    var s', h' := StoredAsleep(WithStatus(s, t, Blocked)), h[t := Asleep];
    assert ListsOk(s, h, t);
    NoDupAppend(s.sleepq, t);
    forall k
      ensures NoDupAt(s', k) && WaitersOk(s', h', k, t)
    {
      assert NoDupAt(s, k) && WaitersOk(s, h, k, t);
    }
    forall u
      ensures OthersSame(s, s', t, u)
    {
    }
    MoveIsStored(s, s', h, Asleep);
  }

  lemma ParkMoves(s: State, h: Homes)
    requires OneQueue(s, h)
    ensures var s' := WithStatus(s, s.running, Blocked);
            Stored(s'.(parked := s.parked + {s.running}), h[s.running := Parked])
  {
    var t := s.running;
    var s', h' := WithStatus(s, t, Blocked).(parked := s.parked + {t}), h[t := Parked];
    assert ListsOk(s, h, t);
    forall k
      ensures NoDupAt(s', k) && WaitersOk(s', h', k, t)
    {
      assert NoDupAt(s, k) && WaitersOk(s, h, k, t);
    }
    MoveIsStored(s, s', h, Parked);
  }

  lemma OffMoves(s: State, h: Homes, st: Status)
    requires OneQueue(s, h) && (st.Dead? || st.Descheduled?)
    ensures Stored(WithStatus(s, s.running, st), h[s.running := Off])
  {
    var t := s.running;
    var s', h' := WithStatus(s, t, st), h[t := Off];
    assert ListsOk(s, h, t);
    forall k
      ensures NoDupAt(s', k) && WaitersOk(s', h', k, t)
    {
      assert NoDupAt(s, k) && WaitersOk(s, h, k, t);
    }
    MoveIsStored(s, s', h, Off);
  }

  // ------------------------------------------------------------------ a thread comes off a queue

  /** Q_REMOVE of the first waiter, with the change of owner. */
  lemma HandOffMoves(s: State, h: Homes, m: Mid)
    requires QueuesOk(s, h, None) && m in s.mutexes && s.mutexes[m].waiters != []
    ensures var w := s.mutexes[m].waiters[0];
            && w in s.status && s.status[w] == Blocked && w in h && h[w] == OnMutex(m)
            && QueuesOk(WithMutex(s, m, HandedOff(s.mutexes[m], s.running)), h[w := Off], Some(w))
  {
    var w := s.mutexes[m].waiters[0];
    assert WaitersOk(s, h, m, w) && HomeOk(s, h, None, w) && NoDupAt(s, m) && ListsOk(s, h, w);
    FrontOff(s.mutexes[m].waiters);
    var s', h' := WithMutex(s, m, HandedOff(s.mutexes[m], s.running)), h[w := Off];
    forall k
      ensures NoDupAt(s', k) && WaitersOk(s', h', k, w)
    {
      assert NoDupAt(s, k) && WaitersOk(s, h, k, w);
    }
    HoleFrame(s, s', h, None, w);
    MoveKeeps(s, s', h, None, Some(w), w, Off);
  }

  /** The frame of taking `w` off its queue. */
  lemma HoleFrame(s: State, s': State, h: Homes, hole: Option<Tid>, w: Tid)
    requires QueuesOk(s, h, hole) && w in s.status && !h[w].Carried? && !h[w].CarriedByScan?
    requires s'.running == s.running && s'.runq == s.runq && s'.pc == s.pc && s'.sleepMux == s.sleepMux
    requires s'.expiry == s.expiry && ScanCarries(s') == ScanCarries(s) && s'.status == s.status
    requires s'.mutexes.Keys == s.mutexes.Keys
    requires forall t :: t != w ==> (t in s'.sleepq <==> t in s.sleepq) && (t in s'.parked <==> t in s.parked)
    requires forall m, t :: m in s.mutexes && t != w ==> (t in s'.mutexes[m].waiters <==> t in s.mutexes[m].waiters)
    ensures MovesOnly(s, s', w)
    ensures forall x {:trigger CarryOk(s', h[w := Off], x)} :: x in s'.pc && s'.pc[x] == Waking(w) ==> CarryOk(s', h[w := Off], x)
    ensures ScanCarries(s') != Some(w)
  {
    forall t
      ensures OthersSame(s, s', w, t)
    {
    }
    forall m, x
      ensures OthersWait(s, s', w, m, x)
    {
    }
    forall x
      ensures PcMoves(s, s', w, x)
    {
    }
    forall x | x in s'.pc && s'.pc[x] == Waking(w)
      ensures CarryOk(s', h[w := Off], x)
    {
      assert CarryOk(s, h, x);
    }
  }

  lemma UnparkMoves(s: State, h: Homes, u: Tid)
    requires QueuesOk(s, h, None) && u in s.parked
    ensures u in s.status && s.status[u] == Blocked && u in h && h[u] == Parked
    ensures QueuesOk(s.(parked := s.parked - {u}), h[u := Off], Some(u))
  {
    assert ListsOk(s, h, u) && HomeOk(s, h, None, u);
    var s', h' := s.(parked := s.parked - {u}), h[u := Off];
    forall k
      ensures NoDupAt(s', k) && WaitersOk(s', h', k, u)
    {
      assert NoDupAt(s, k) && WaitersOk(s, h, k, u);
    }
    HoleFrame(s, s', h, None, u);
    MoveKeeps(s, s', h, None, Some(u), u, Off);
  }

  lemma UnsleepMoves(s: State, h: Homes, u: Tid)
    requires QueuesOk(s, h, None) && u in s.sleepq
    ensures u in s.status && s.status[u] == Blocked && u in h && h[u] == Asleep
    ensures QueuesOk(s.(sleepq := Without(s.sleepq, u)), h[u := Off], Some(u))
  {
    assert ListsOk(s, h, u) && HomeOk(s, h, None, u);
    NoDupWithout(s.sleepq, u);
    var s', h' := s.(sleepq := Without(s.sleepq, u)), h[u := Off];
    forall k
      ensures NoDupAt(s', k) && WaitersOk(s', h', k, u)
    {
      assert NoDupAt(s, k) && WaitersOk(s, h, k, u);
    }
    HoleFrame(s, s', h, None, u);
    MoveKeeps(s, s', h, None, Some(u), u, Off);
  }

  // ------------------------------------------------------------------ a thread between queues is carried

  /** The unlocking thread has yet to wake `u`. */
  lemma CarryMoves(s: State, h: Homes, u: Tid)
    requires QueuesOk(s, h, Some(u)) && u in h && h[u] == Off && s.status[u] == Blocked
    requires !s.pc[s.running].Waking?
    ensures QueuesOk(WithPc(s, s.running, Waking(u)), h[u := Carried(s.running)], None)
  {
    var s', h' := WithPc(s, s.running, Waking(u)), h[u := Carried(s.running)];
    PcFrame(s, s', h, Some(u), u, Carried(s.running));
    forall x | x in s'.pc && s'.pc[x] == Waking(u)
      ensures CarryOk(s', h', x)
    {
      assert CarryOk(s, h, x);
    }
    MoveKeeps(s, s', h, Some(u), None, u, Carried(s.running));
  }

  lemma PcFrame(s: State, s': State, h: Homes, hole: Option<Tid>, u: Tid, home: Home)
    requires QueuesOk(s, h, hole) && u in s.status && (h[u] == Off || h[u].Carried? || h[u].CarriedByScan?)
    requires home == Off || home.Carried? || home.CarriedByScan?
    requires s' == s.(pc := s'.pc, scan := s'.scan) && s'.pc.Keys == s.pc.Keys
    requires ScanCarries(s') == ScanCarries(s) || (ScanCarries(s) in {None, Some(u)}
             && ScanCarries(s') in {None, Some(u)})
    requires forall x :: x in s.pc && s.pc[x] != s'.pc[x] ==>
               (s.pc[x].Waking? ==> s.pc[x].u == u) && (s'.pc[x].Waking? ==> s'.pc[x].u == u)
    ensures MovesOnly(s, s', u)
    ensures NoDup(s'.sleepq) && (forall m :: NoDupAt(s', m))
    ensures ListsOk(s', h[u := home], u)
    ensures OnNoOther(s', h[u := home], u)
  {
    assert ListsOk(s, h, u);
    forall t
      ensures OthersSame(s, s', u, t)
    {
    }
    forall m, x
      ensures OthersWait(s, s', u, m, x)
    {
    }
    forall x
      ensures PcMoves(s, s', u, x)
    {
    }
    var h' := h[u := home];
    forall m
      ensures NoDupAt(s', m) && WaitersOk(s', h', m, u)
    {
      assert NoDupAt(s, m) && WaitersOk(s, h, m, u);
    }
    assert OnNoOther(s', h', u);
  }

  /** ... and now it does. */
  lemma UncarryMoves(s: State, h: Homes, u: Tid)
    requires QueuesOk(s, h, None) && s.pc[s.running] == Waking(u)
    ensures u in s.status && s.status[u] == Blocked && u in h && h[u] == Carried(s.running)
    ensures QueuesOk(WithPc(s, s.running, Idle), h[u := Off], Some(u))
  {
    assert CarryOk(s, h, s.running) && HomeOk(s, h, None, u);
    var s', h' := WithPc(s, s.running, Idle), h[u := Off];
    PcFrame(s, s', h, None, u, Off);
    forall x
      ensures !(x in s'.pc && s'.pc[x] == Waking(u))
    {
      assert CarryOk(s, h, x);
    }
    MoveKeeps(s, s', h, None, Some(u), u, Off);
  }

  lemma ScanCarryMoves(s: State, h: Homes, c: Scan, u: Tid)
    requires QueuesOk(s, h, Some(u)) && u in h && h[u] == Off && s.status[u] == Blocked
    requires ScanCarries(s) == None && (c.phase == ScanWake(u) || c.phase == ScanHand(u))
    ensures QueuesOk(WithScan(s, c), h[u := CarriedByScan], None)
  {
    var s', h' := WithScan(s, c), h[u := CarriedByScan];
    PcFrame(s, s', h, Some(u), u, CarriedByScan);
    forall x
      ensures !(x in s'.pc && s'.pc[x] == Waking(u))
    {
      assert CarryOk(s, h, x);
    }
    MoveKeeps(s, s', h, Some(u), None, u, CarriedByScan);
  }

  lemma ScanUncarryMoves(s: State, h: Homes, c: Scan, u: Tid)
    requires QueuesOk(s, h, None) && ScanCarries(s) == Some(u) && !c.phase.ScanWake? && !c.phase.ScanHand?
    ensures u in s.status && s.status[u] == Blocked && u in h && h[u] == CarriedByScan
    ensures QueuesOk(WithScan(s, c), h[u := Off], Some(u))
  {
    assert HomeOk(s, h, None, u);
    var s', h' := WithScan(s, c), h[u := Off];
    PcFrame(s, s', h, None, u, Off);
    forall x
      ensures !(x in s'.pc && s'.pc[x] == Waking(u))
    {
      assert CarryOk(s, h, x);
    }
    MoveKeeps(s, s', h, None, Some(u), u, Off);
  }

  /** switch_safe_mutex_unlock: the first waiter, if any, becomes the owner and runnable. */
  lemma SafeUnlockMoves(s: State, h: Homes, m: Mid) returns (h': Homes)
    requires QueuesOk(s, h, None) && Owns(s, m) && !h[s.running].OnMutex?
    ensures SafeUnlock(s, m).Step? && QueuesOk(SafeUnlock(s, m).s, h', None)
    ensures h'[s.running] == h[s.running]
    ensures forall t :: t in h && !h[t].OnMutex? ==> t in h' && h'[t] == h[t]
  {
    var x := s.mutexes[m];
    if x.waiters == [] {
      SameByMutex(s, m, Freed(x, s.running));
      SameKeeps(s, SafeUnlock(s, m).s, h, None);
      h' := h;
    } else {
      var w := x.waiters[0];
      HandOffMoves(s, h, m);
      AddIs(WithMutex(s, m, HandedOff(x, s.running)), h[w := Off], Some(w), w);
      h' := h[w := Off][w := Queued];
    }
  }
}
