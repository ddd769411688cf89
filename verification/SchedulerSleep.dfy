/** earliest_expiry_date as an index of the sleep queue, under everything that touches either. */
module SchedulerSleep {
  import opened Seqs
  import opened Scheduler
  import opened SchedulerInvariant
  import opened SchedulerQueues

  /** No scan is between its reset of the index and the end of its loop. */
  ghost predicate Settled(z: Sleepers) {
    z.scan.Some? ==> !Locking(z.scan.value) && !Looping(z.scan.value)
  }

  /** The queue with its dates, apart from what a scan remembers. */
  lemma TimePasses(z: Sleepers, z': Sleepers)
    requires IndexOk(z) && z' == z.(ticks := z'.ticks) && z.ticks <= z'.ticks
    ensures IndexOk(z')
  {
    SameIndex(z, z');
  }

  ghost predicate SameDate(z: Sleepers, z': Sleepers, t: Tid) {
    && (t in z'.expiry ==> z'.expiry[t] <= UINT_MAX)
    && (t in z.queue ==> t in z'.expiry && t in z.expiry && z'.expiry[t] == z.expiry[t])
  }

  /** Dates of threads that do not sleep may change, and time may pass. */
  lemma SameIndex(z: Sleepers, z': Sleepers)
    requires IndexOk(z) && z'.queue == z.queue && z'.earliest == z.earliest && z'.scan == z.scan && z.ticks <= z'.ticks
    requires z'.expiry == z.expiry || forall t {:trigger SameDate(z, z', t)} :: SameDate(z, z', t)
    ensures IndexOk(z')
  {
    forall t
      ensures Dated(z', t) && SameDate(z, z', t)
      ensures Settled(z) ==> NotBefore(z', t)
    {
      assert Dated(z, t) && (Settled(z) ==> NotBefore(z, t));
      assert z'.expiry != z.expiry ==> SameDate(z, z', t);
    }
    if z.scan.Some? {
      SameScan(z, z', z.scan.value);
    }
  }

  lemma SameScan(z: Sleepers, z': Sleepers, c: Scan)
    requires ScanOk(z, c) && z'.queue == z.queue && z'.earliest == z.earliest && z.ticks <= z'.ticks
    requires forall t {:trigger SameDate(z, z', t)} :: SameDate(z, z', t)
    requires !Locking(c) && !Looping(c) ==> forall t {:trigger NotBefore(z', t)} :: NotBefore(z', t)
    ensures ScanOk(z', c)
  {
    if Attained(z) {
      var t :| t in z.queue && t in z.expiry && z.expiry[t] == z.earliest;
      assert SameDate(z, z', t);
    }
    if Looping(c) {
      forall t
        ensures PassedOk(z', c, t)
      {
        assert PassedOk(z, c, t) && SameDate(z, z', t);
        assert t in c.kept ==> t in z.queue;
      }
    }
  }

  /** store_tcb_in_sleep_queue on the index. */
  ghost function StoredIn(z: Sleepers, t: Tid): Sleepers
    requires t in z.expiry
  {
    var e := z.expiry[t];
    var early := z.scan.Some? && Locking(z.scan.value) && e <= z.scan.value.now;
    z.(queue := z.queue + [t], earliest := Min(z.earliest, e),
       scan := if early then Some(z.scan.value.(low := true)) else z.scan)
  }

  lemma StoreKeeps(z: Sleepers, t: Tid)
    requires IndexOk(z) && t in z.expiry && (z.scan.Some? ==> !Looping(z.scan.value))
    ensures IndexOk(StoredIn(z, t))
  {
    var z' := StoredIn(z, t);
    assert Dated(z, t);
    forall u
      ensures Dated(z', u)
      ensures Settled(z) ==> NotBefore(z', u)
    {
      assert Dated(z, u) && (Settled(z) ==> NotBefore(z, u));
    }
    if Attained(z) {
      var u :| u in z.queue && u in z.expiry && z.expiry[u] == z.earliest;
      assert u in z'.queue;
    }
    assert t in z'.queue;
  }

  /** A store keeps an exact index exact. */
  lemma StoreExact(z: Sleepers, t: Tid)
    requires Exact(z) && t in z.expiry && Dated(z, t)
    ensures Exact(StoredIn(z, t))
  {
    var z' := StoredIn(z, t);
    forall u
      ensures NotBefore(z', u)
    {
      assert NotBefore(z, u);
    }
    if Attained(z) {
      var u :| u in z.queue && u in z.expiry && z.expiry[u] == z.earliest;
      assert u in z'.queue;
    }
    assert t in z'.queue;
  }

  /** sleep.c:81, before the lock. */
  lemma ResetKeeps(z: Sleepers, c: Scan)
    requires IndexOk(z) && z.scan == None && c.phase == ScanGap && c.now == z.ticks && c.now < UINT_MAX
    requires c.past == [] && c.woken == [] && c.kept == [] && !c.low
    ensures IndexOk(z.(earliest := UINT_MAX, scan := Some(c)))
  {
    forall t
      ensures Dated(z.(earliest := UINT_MAX, scan := Some(c)), t)
    {
      assert Dated(z, t);
    }
  }

  /** The scan has the lock and reads the front of the queue. */
  lemma BeginKeeps(z: Sleepers, c: Scan, c': Scan)
    requires IndexOk(z) && z.scan == Some(c) && Locking(c)
    requires c' == c.(phase := ScanLoop, rest := z.queue, start := z.queue, dates := z.expiry)
    ensures IndexOk(z.(scan := Some(c')))
  {
    var z' := z.(scan := Some(c'));
    forall t
      ensures Dated(z', t) && PassedOk(z', c', t)
    {
      assert Dated(z, t);
    }
  }

  /** The phases in which the queue is what it was are interchangeable. */
  lemma PhaseKeeps(z: Sleepers, c: Scan, c': Scan)
    requires IndexOk(z) && z.scan == Some(c) && c' == c.(phase := c'.phase)
    requires Locking(c) == Locking(c') && Looping(c) == Looping(c')
    ensures IndexOk(z.(scan := Some(c')))
  {
    var z' := z.(scan := Some(c'));
    forall t
      ensures Dated(z', t)
      ensures NotBefore(z, t) ==> NotBefore(z', t)
      ensures PassedOk(z, c, t) ==> PassedOk(z', c', t)
    {
      assert Dated(z, t);
    }
    if Attained(z) {
      var t :| t in z.queue && t in z.expiry && z.expiry[t] == z.earliest;
      assert t in z'.queue;
    }
    if Looping(c) {
      forall t
        ensures PassedOk(z', c', t)
      {
        assert PassedOk(z, c, t);
      }
    }
    if !Locking(c) && !Looping(c) {
      forall t
        ensures NotBefore(z', t)
      {
        assert NotBefore(z, t);
      }
    }
  }

  lemma TakeLast(xs: seq<Tid>, x: Tid, dates: map<Tid, nat>, now: nat)
    ensures UpTo(xs + [x], dates, now) == UpTo(xs, dates, now) + (if x in dates && dates[x] <= now then [x] else [])
    ensures After(xs + [x], dates, now) == After(xs, dates, now) + (if x in dates && dates[x] <= now then [] else [x])
  {
    assert (xs + [x])[..|xs|] == xs;
  }

  ghost function KeptOne(z: Sleepers, c: Scan): Sleepers
    requires c.rest != [] && c.rest[0] in z.expiry
  {
    z.(earliest := Min(z.earliest, z.expiry[c.rest[0]]),
       scan := Some(c.(rest := c.rest[1..], past := c.past + [c.rest[0]], kept := c.kept + [c.rest[0]])))
  }

  lemma KeepLow(z: Sleepers, c: Scan)
    requires LowOk(z, c) && c.now < UINT_MAX && c.rest != [] && c.rest[0] in z.expiry && c.now < z.expiry[c.rest[0]]
    requires z.queue == c.kept + c.rest
    ensures LowOk(KeptOne(z, c), KeptOne(z, c).scan.value)
  {
    var x, z' := c.rest[0], KeptOne(z, c);
    assert x in z'.queue;
    if Attained(z) {
      var t :| t in z.queue && t in z.expiry && z.expiry[t] == z.earliest;
      assert t in z'.queue;
    }
  }

  lemma KeepLoop(z: Sleepers, c: Scan)
    requires LoopOk(z, c) && c.rest != []
    requires c.rest[0] in z.expiry && c.now < z.expiry[c.rest[0]]
    ensures LoopOk(KeptOne(z, c), KeptOne(z, c).scan.value)
  {
    var x, z' := c.rest[0], KeptOne(z, c);
    var c' := z'.scan.value;
    assert c.rest == [x] + c'.rest;
    assert x in z.queue && PassedOk(z, c, x);
    TakeLast(c.past, x, c.dates, c.now);
    assert c.kept + c.rest == c'.kept + c'.rest;
    assert c.past + c.rest == c'.past + c'.rest;
    forall t
      ensures PassedOk(z', c', t)
    {
      assert PassedOk(z, c, t);
    }
  }

  /** curr sleeps on: its date goes into the index. */
  lemma KeepOne(z: Sleepers, c: Scan)
    requires IndexOk(z) && z.scan == Some(c) && c.phase == ScanLoop && c.rest != []
    requires c.rest[0] in z.expiry && c.now < z.expiry[c.rest[0]]
    ensures IndexOk(KeptOne(z, c))
  {
    var z' := KeptOne(z, c);
    KeepLow(z, c);
    KeepLoop(z, c);
    forall t
      ensures Dated(z', t)
    {
      assert Dated(z, t);
    }
  }

  ghost function WokenOne(z: Sleepers, c: Scan): Sleepers
    requires c.rest != []
  {
    var x := c.rest[0];
    z.(queue := Without(z.queue, x),
       scan := Some(c.(rest := c.rest[1..], past := c.past + [x], woken := c.woken + [x], phase := ScanWake(x))))
  }

  lemma WakeLow(z: Sleepers, c: Scan)
    requires LowOk(z, c) && c.rest != [] && c.rest[0] in z.expiry && z.expiry[c.rest[0]] <= c.now
    ensures LowOk(WokenOne(z, c), WokenOne(z, c).scan.value)
  {
    var x, z' := c.rest[0], WokenOne(z, c);
    if Attained(z) {
      var t :| t in z.queue && t in z.expiry && z.expiry[t] == z.earliest;
      assert t != x ==> t in z'.queue;
    }
  }

  lemma WakeLoop(z: Sleepers, c: Scan)
    requires LoopOk(z, c) && c.rest != [] && NoDup(z.queue)
    requires c.rest[0] in z.queue && c.rest[0] in z.expiry && z.expiry[c.rest[0]] <= c.now
    ensures LoopOk(WokenOne(z, c), WokenOne(z, c).scan.value)
  {
    var x, z' := c.rest[0], WokenOne(z, c);
    var c' := z'.scan.value;
    assert c.rest == [x] + c.rest[1..];
    assert z.queue == c.kept + [x] + c.rest[1..];
    WithoutMiddle(c.kept, x, c.rest[1..]);
    assert PassedOk(z, c, x);
    TakeLast(c.past, x, c.dates, c.now);
    forall t
      ensures PassedOk(z', c', t)
    {
      assert PassedOk(z, c, t);
    }
  }

  /** curr has slept long enough: it leaves the queue. */
  lemma WakeOne(z: Sleepers, c: Scan)
    requires IndexOk(z) && z.scan == Some(c) && c.phase == ScanLoop && c.rest != [] && NoDup(z.queue)
    requires c.rest[0] in z.expiry && z.expiry[c.rest[0]] <= c.now
    ensures IndexOk(WokenOne(z, c))
  {
    var z' := WokenOne(z, c);
    assert c.rest[0] in c.kept + c.rest;
    WakeLow(z, c);
    WakeLoop(z, c);
    forall t
      ensures Dated(z', t)
    {
      assert Dated(z, t);
    }
  }

  /** The end of the loop: the index is below every sleeper, and exact unless a date was stored behind
      the scan's back. */
  lemma EndIs(z: Sleepers, c: Scan)
    requires IndexOk(z) && z.scan == Some(c) && c.phase == ScanLoop && c.rest == []
    ensures forall t {:trigger NotBefore(z, t)} :: NotBefore(z, t)
    ensures Exact(z) <==> !c.low
    ensures c.woken == UpTo(c.start, c.dates, c.now) && z.queue == After(c.start, c.dates, c.now)
  {
    assert c.start == c.past && z.queue == c.kept;
    forall t
      ensures NotBefore(z, t)
    {
      assert PassedOk(z, c, t);
    }
    forall t | c.low
      ensures !(t in z.queue && t in z.expiry && z.expiry[t] == z.earliest)
    {
      assert PassedOk(z, c, t);
    }
  }

  lemma EndKeeps(z: Sleepers, c: Scan, c': Scan)
    requires IndexOk(z) && z.scan == Some(c) && c.phase == ScanLoop && c.rest == []
    requires c' == c.(phase := c'.phase) && !Locking(c') && !Looping(c')
    ensures IndexOk(z.(scan := Some(c')))
  {
    var z' := z.(scan := Some(c'));
    EndIs(z, c);
    forall t
      ensures Dated(z', t) && NotBefore(z', t)
    {
      assert Dated(z, t) && NotBefore(z, t);
    }
  }

  lemma DoneKeeps(z: Sleepers)
    requires IndexOk(z) && z.scan.Some? && !Locking(z.scan.value) && !Looping(z.scan.value)
    ensures IndexOk(z.(scan := None))
  {
    var z' := z.(scan := None);
    forall t
      ensures Dated(z', t) && NotBefore(z', t)
    {
      assert Dated(z, t) && NotBefore(z, t);
    }
  }
}
