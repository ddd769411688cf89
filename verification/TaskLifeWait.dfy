/** wait keeps the invariant. */
module TaskLifeWait {
  import opened Seqs
  import opened TaskLife
  import opened TaskLifeInvariant
  import opened TaskLifeProofs

  ghost predicate AtRegion(s: State, t: Tid) {
    t in s.threads && s.threads[t].task in s.tasks && s.threads[t].pc == WaitHasMux && s.threads[t].status == Ready
  }

  /** Nothing to collect, but a child is left to wait for. */
  ghost predicate Blocks(s: State, t: Tid)
    requires AtRegion(s, t)
  {
    var k := s.tasks[s.threads[t].task];
    k.vanished == [] && k.numWaiting < k.numActive + k.numVanished
  }

  ghost predicate Refused(s: State, t: Tid)
    requires AtRegion(s, t)
  {
    var k := s.tasks[s.threads[t].task];
    k.vanished == [] && k.numWaiting >= k.numActive + k.numVanished
  }

  lemma RegionLocks(s: State, t: Tid)
    requires AtRegion(s, t) && LocksOk(s) && WaitRegion(s, t).Step?
    ensures LockMove(s, WaitRegion(s, t).s, t)
  {
    assert LockOk(s, t, s.threads[t].task) && TreeOk(s, t);
  }

  // ------------------------------------------------------------------ blocking

  lemma BlockThreads(s: State, pl: Places, t: Tid)
    requires AtRegion(s, t) && Blocks(s, t) && ThreadsOk(s, pl)
    ensures ThreadsOk(WaitRegion(s, t).s, pl)
  {
    var s' := WaitRegion(s, t).s;
    forall u | u in s'.threads
      ensures ThreadOk(s', u) && PcOk(s', pl, u) && CarriesOk(s', pl, u)
    {
      assert ThreadOk(s, u) && PcOk(s, pl, u) && CarriesOk(s, pl, u);
    }
  }

  lemma BlockTasks(s: State, t: Tid)
    requires AtRegion(s, t) && Blocks(s, t) && TasksOk(s) && ThreadOk(s, t)
    ensures TasksOk(WaitRegion(s, t).s)
  {
    var s' := WaitRegion(s, t).s;
    forall p | p in s'.tasks
      ensures TaskOk(s', p)
    {
      assert TaskOk(s, p);
      assert MemberOk(s, p, t);
      if p == s.threads[t].task {
        NoDupConcat(s.tasks[p].waiting, [t]);
      }
      forall u
        ensures MemberOk(s', p, u)
      {
        assert MemberOk(s, p, u);
      }
    }
  }

  lemma BlockPlaces(s: State, pl: Places, t: Tid)
    requires AtRegion(s, t) && Blocks(s, t) && PlacesOk(s, pl)
    ensures PlacesOk(WaitRegion(s, t).s, pl)
  {
    var s' := WaitRegion(s, t).s;
    forall p | p in s'.tasks
      ensures PlaceOk(s', pl, p) && OnParentsList(s', pl, p)
    {
      assert PlaceOk(s, pl, p) && OnParentsList(s, pl, p);
    }
    forall q, p | q in s'.tasks
      ensures ListsOk(s', pl, q, p)
    {
      assert ListsOk(s, pl, q, p);
    }
  }

  /** The test before blocking is what keeps waiters covered: with nothing to collect, the counters
      leave at least one active child per waiter. */
  lemma BlockCounts(s: State, t: Tid)
    requires AtRegion(s, t) && Blocks(s, t) && CountsOk(s) && ForksApart(s) && Accounted(s)
    requires TaskOk(s, s.threads[t].task) && s.tasks[s.threads[t].task].listed
    ensures CountsOk(WaitRegion(s, t).s) && ForksApart(WaitRegion(s, t).s) && Accounted(WaitRegion(s, t).s)
  {
    var s' := WaitRegion(s, t).s;
    forall q | q in s'.tasks
      ensures Covered(s', q) && (q != s'.init ==> NotBoth(s', q))
    {
      assert Covered(s, q) && (q != s.init ==> NotBoth(s, q));
    }
    forall u, v | u in s'.threads && v in s'.threads
      ensures ForkApart(s', u, v)
    {
      assert ForkApart(s, u, v);
    }
  }

  lemma BlockKeeps(s: State, pl: Places, t: Tid)
    requires Stepping(s, pl, t) && AtRegion(s, t) && Blocks(s, t)
    ensures InvAt(WaitRegion(s, t).s, pl)
  {
    assert ThreadOk(s, t) && TaskOk(s, s.threads[t].task);
    RegionLocks(s, t);
    LocksKept(s, WaitRegion(s, t).s, t);
    BlockThreads(s, pl, t);
    BlockTasks(s, t);
    BlockPlaces(s, pl, t);
    BlockCounts(s, t);
  }

  // ------------------------------------------------------------------ refusal

  lemma RefuseShape(s: State, t: Tid)
    requires AtRegion(s, t) && Refused(s, t) && s.tasks[s.threads[t].task].mux == Some(t)
    ensures var s' := WaitRegion(s, t).s; OnlyPc(s, s', t) && SameKind(WaitHasMux, s'.threads[t].pc)
  {
  }

  lemma RefuseThread(s: State, pl: Places, t: Tid)
    requires AtRegion(s, t) && Refused(s, t) && ThreadOk(s, t)
    ensures ThreadOk(WaitRegion(s, t).s, t) && PcOk(WaitRegion(s, t).s, pl, t)
  {
  }

  lemma RefuseKeeps(s: State, pl: Places, t: Tid)
    requires Stepping(s, pl, t) && AtRegion(s, t) && Refused(s, t)
    ensures InvAt(WaitRegion(s, t).s, pl)
  {
    var s' := WaitRegion(s, t).s;
    assert ThreadOk(s, t) && LockOk(s, t, s.threads[t].task);
    RegionLocks(s, t);
    RefuseShape(s, t);
    RefuseThread(s, pl, t);
    PcMove(s, s', pl, t);
  }

  // ------------------------------------------------------------------ collecting at once

  ghost predicate Takes(s: State, t: Tid)
    requires AtRegion(s, t)
  {
    s.tasks[s.threads[t].task].vanished != []
  }

  /** The first vanished child is a task whose last thread is dead. */
  lemma TakeSafe(s: State, pl: Places, t: Tid)
    requires AtRegion(s, t) && Takes(s, t) && PlacesOk(s, pl) && ThreadsOk(s, pl)
    ensures var c := s.tasks[s.threads[t].task].vanished[0];
            c in s.tasks && pl[c] == OnList(s.threads[t].task) && Corpse(s, c) && WaitRegion(s, t).Step?
  {
    var p := s.threads[t].task;
    var c := s.tasks[p].vanished[0];
    assert ListsOk(s, pl, p, c);
    assert PlaceOk(s, pl, c);
    assert ThreadOk(s, s.tasks[c].last.value);
  }

  lemma TakePc(s: State, pl: Places, t: Tid, u: Tid)
    requires AtRegion(s, t) && Takes(s, t) && WaitRegion(s, t).Step? && u in s.threads && u != t
    requires var c := s.tasks[s.threads[t].task].vanished[0]; c in pl && pl[c] == OnList(s.threads[t].task)
    requires ThreadOk(s, u) && PcOk(s, pl, u)
    requires s.tasks[s.threads[t].task].last == None
    ensures PcOk(WaitRegion(s, t).s, pl[s.tasks[s.threads[t].task].vanished[0] := Held(t)], u)
  {
  }

  lemma TakeThread(s: State, pl: Places, t: Tid, u: Tid)
    requires AtRegion(s, t) && Takes(s, t) && WaitRegion(s, t).Step? && u in s.threads
    requires var c := s.tasks[s.threads[t].task].vanished[0]; c in pl && pl[c] == OnList(s.threads[t].task)
    requires ThreadOk(s, u) && CarriesOk(s, pl, u)
    ensures var s' := WaitRegion(s, t).s;
            var pl' := pl[s.tasks[s.threads[t].task].vanished[0] := Held(t)];
            ThreadOk(s', u) && CarriesOk(s', pl', u)
  {
  }

  lemma TakeThreads(s: State, pl: Places, t: Tid)
    requires AtRegion(s, t) && Takes(s, t) && ThreadsOk(s, pl) && WaitRegion(s, t).Step?
    requires var c := s.tasks[s.threads[t].task].vanished[0]; c in pl && pl[c] == OnList(s.threads[t].task)
    requires s.tasks[s.threads[t].task].last == None
    ensures ThreadsOk(WaitRegion(s, t).s, pl[s.tasks[s.threads[t].task].vanished[0] := Held(t)])
  {
    var s' := WaitRegion(s, t).s;
    var pl' := pl[s.tasks[s.threads[t].task].vanished[0] := Held(t)];
    forall u | u in s'.threads
      ensures ThreadOk(s', u) && PcOk(s', pl', u) && CarriesOk(s', pl', u)
    {
      assert ThreadOk(s, u) && PcOk(s, pl, u) && CarriesOk(s, pl, u);
      TakeThread(s, pl, t, u);
      if u != t {
        TakePc(s, pl, t, u);
      }
    }
  }

  lemma TakeTasks(s: State, t: Tid)
    requires AtRegion(s, t) && Takes(s, t) && TasksOk(s) && ThreadOk(s, t) && WaitRegion(s, t).Step?
    ensures TasksOk(WaitRegion(s, t).s)
  {
    var s' := WaitRegion(s, t).s;
    forall p | p in s'.tasks
      ensures TaskOk(s', p)
    {
      assert TaskOk(s, p);
      if p == s.threads[t].task {
        NoDupWithout(s.tasks[p].vanished, s.tasks[p].vanished[0]);
      }
      forall u
        ensures MemberOk(s', p, u)
      {
        assert MemberOk(s, p, u);
      }
    }
  }

  lemma TakePlaces(s: State, pl: Places, t: Tid)
    requires AtRegion(s, t) && Takes(s, t) && PlacesOk(s, pl) && WaitRegion(s, t).Step?
    requires NoDup(s.tasks[s.threads[t].task].vanished) && s.threads[t].collected == None
    requires var c := s.tasks[s.threads[t].task].vanished[0];
             c in s.tasks && pl[c] == OnList(s.threads[t].task) && Corpse(s, c)
    ensures PlacesOk(WaitRegion(s, t).s, pl[s.tasks[s.threads[t].task].vanished[0] := Held(t)])
  {
    var s' := WaitRegion(s, t).s;
    var c := s.tasks[s.threads[t].task].vanished[0];
    var pl' := pl[c := Held(t)];
    NoDupWithout(s.tasks[s.threads[t].task].vanished, c);
    forall p | p in s'.tasks
      ensures PlaceOk(s', pl', p) && OnParentsList(s', pl', p)
    {
      assert PlaceOk(s, pl, p) && OnParentsList(s, pl, p);
    }
    forall q, p | q in s'.tasks
      ensures ListsOk(s', pl', q, p)
    {
      assert ListsOk(s, pl, q, p);
    }
  }

  lemma TakeCounts(s: State, t: Tid)
    requires AtRegion(s, t) && Takes(s, t) && CountsOk(s) && ForksApart(s) && Accounted(s) && WaitRegion(s, t).Step?
    requires s.tasks[s.threads[t].task].mux == Some(t)
    ensures CountsOk(WaitRegion(s, t).s) && ForksApart(WaitRegion(s, t).s) && Accounted(WaitRegion(s, t).s)
  {
    var s' := WaitRegion(s, t).s;
    forall q | q in s'.tasks
      ensures Covered(s', q) && (q != s'.init ==> NotBoth(s', q))
    {
      assert Covered(s, q) && (q != s.init ==> NotBoth(s, q));
    }
    forall u, v | u in s'.threads && v in s'.threads
      ensures ForkApart(s', u, v)
    {
      assert ForkApart(s, u, v);
    }
  }

  lemma TakeKeeps(s: State, pl: Places, t: Tid)
    requires Stepping(s, pl, t) && AtRegion(s, t) && Takes(s, t)
    ensures WaitRegion(s, t).Step?
    ensures InvAt(WaitRegion(s, t).s, pl[s.tasks[s.threads[t].task].vanished[0] := Held(t)])
  {
    TakeSafe(s, pl, t);
    assert ThreadOk(s, t) && TaskOk(s, s.threads[t].task) && LockOk(s, t, s.threads[t].task);
    RegionLocks(s, t);
    LocksKept(s, WaitRegion(s, t).s, t);
    TakeThreads(s, pl, t);
    TakeTasks(s, t);
    TakePlaces(s, pl, t);
    TakeCounts(s, t);
  }

  // ------------------------------------------------------------------ freeing the collected child

  ghost predicate AtFree(s: State, pl: Places, t: Tid) {
    && t in s.threads && s.threads[t].task in s.tasks && s.threads[t].pc == WaitCollect && s.threads[t].status == Ready
    && s.threads[t].collected.Some? && s.threads[t].collected.value in s.tasks
    && pl.Keys == s.tasks.Keys && s.init in s.tasks && pl[s.threads[t].collected.value] == Held(t)
    && Corpse(s, s.threads[t].collected.value)
    && s.tasks[s.threads[t].collected.value].threads == []
    && s.tasks[s.threads[t].collected.value].last.value != t
  }

  /** Everything free_pcb_but_not_pd and free_tcb affirm holds of a collected child. */
  lemma FreeSafe(s: State, pl: Places, t: Tid)
    requires Stepping(s, pl, t) && s.threads[t].pc == WaitCollect
    ensures AtFree(s, pl, t) && WaitFree(s, t).Step?
  {
    assert ThreadOk(s, t) && CarriesOk(s, pl, t);
    var c := s.threads[t].collected.value;
    assert PlaceOk(s, pl, c) && TaskOk(s, c);
    assert ThreadOk(s, s.tasks[c].last.value);
    if q :| q in s.tasks && (c in s.tasks[q].active || c in s.tasks[q].vanished) {
      assert ListsOk(s, pl, q, c);
    }
  }

  /** Nobody holds or takes the lock of a task that is gone. */
  lemma FreeUnlocked(s: State, pl: Places, t: Tid)
    requires AtFree(s, pl, t) && LocksOk(s) && ThreadsOk(s, pl)
    requires !s.tasks[s.threads[t].collected.value].listed && s.tasks[s.init].listed
    ensures s.tasks[s.threads[t].collected.value].mux == None
  {
    var c := s.threads[t].collected.value;
    var u := if s.tasks[c].mux.Some? then s.tasks[c].mux.value else t;
    assert u in s.threads ==> ThreadOk(s, u) && PcOk(s, pl, u);
    assert LockOk(s, u, c);
  }

  lemma FreeLocks(s: State, pl: Places, t: Tid)
    requires AtFree(s, pl, t) && WaitFree(s, t).Step? && LocksOk(s) && s.tasks[s.threads[t].collected.value].mux == None
    ensures LockMove(s, WaitFree(s, t).s, t)
  {
    assert TreeOk(s, t);
  }

  lemma FreePc(s: State, pl: Places, t: Tid, u: Tid)
    requires AtFree(s, pl, t) && WaitFree(s, t).Step? && !s.tasks[s.threads[t].collected.value].listed
    requires u in s.threads && ThreadOk(s, u) && PcOk(s, pl, u) && u != s.tasks[s.threads[t].collected.value].last.value
    ensures u in WaitFree(s, t).s.threads && s.threads[u].task in WaitFree(s, t).s.tasks
    ensures PcOk(WaitFree(s, t).s, pl - {s.threads[t].collected.value}, u)
  {
  }

  lemma FreeThread(s: State, pl: Places, t: Tid, u: Tid)
    requires AtFree(s, pl, t) && WaitFree(s, t).Step? && !s.tasks[s.threads[t].collected.value].listed
    requires u in s.threads && ThreadOk(s, u) && CarriesOk(s, pl, u)
             && u != s.tasks[s.threads[t].collected.value].last.value
    ensures u in WaitFree(s, t).s.threads && ThreadOk(WaitFree(s, t).s, u)
    ensures CarriesOk(WaitFree(s, t).s, pl - {s.threads[t].collected.value}, u)
  {
  }

  lemma FreeThreads(s: State, pl: Places, t: Tid)
    requires AtFree(s, pl, t) && WaitFree(s, t).Step? && ThreadsOk(s, pl)
             && !s.tasks[s.threads[t].collected.value].listed
    ensures ThreadsOk(WaitFree(s, t).s, pl - {s.threads[t].collected.value})
  {
    var s' := WaitFree(s, t).s;
    var pl' := pl - {s.threads[t].collected.value};
    forall u | u in s'.threads
      ensures ThreadOk(s', u) && PcOk(s', pl', u) && CarriesOk(s', pl', u)
    {
      assert ThreadOk(s, u) && PcOk(s, pl, u) && CarriesOk(s, pl, u);
      FreeThread(s, pl, t, u);
      FreePc(s, pl, t, u);
    }
  }

  lemma FreeTasks(s: State, pl: Places, t: Tid)
    requires AtFree(s, pl, t) && WaitFree(s, t).Step? && TasksOk(s)
             && ThreadOk(s, s.tasks[s.threads[t].collected.value].last.value)
    ensures TasksOk(WaitFree(s, t).s)
  {
    var s' := WaitFree(s, t).s;
    var c := s.threads[t].collected.value;
    assert MemberOk(s, c, s.tasks[c].last.value) by {
      assert TaskOk(s, c);
    }
    forall p | p in s'.tasks
      ensures TaskOk(s', p)
    {
      assert TaskOk(s, p);
      forall u
        ensures MemberOk(s', p, u)
      {
        assert MemberOk(s, p, u);
      }
    }
  }

  lemma FreePlaces(s: State, pl: Places, t: Tid)
    requires AtFree(s, pl, t) && WaitFree(s, t).Step? && PlacesOk(s, pl)
    ensures PlacesOk(WaitFree(s, t).s, pl - {s.threads[t].collected.value})
  {
    var s' := WaitFree(s, t).s;
    var pl' := pl - {s.threads[t].collected.value};
    forall p | p in s'.tasks
      ensures PlaceOk(s', pl', p) && OnParentsList(s', pl', p)
    {
      assert PlaceOk(s, pl, p) && OnParentsList(s, pl, p);
    }
    forall q, p | q in s'.tasks
      ensures ListsOk(s', pl', q, p)
    {
      assert ListsOk(s, pl, q, p);
    }
  }

  lemma FreeCounts(s: State, pl: Places, t: Tid)
    requires AtFree(s, pl, t) && WaitFree(s, t).Step? && CountsOk(s) && ForksApart(s)
    ensures CountsOk(WaitFree(s, t).s) && ForksApart(WaitFree(s, t).s)
  {
    var s' := WaitFree(s, t).s;
    forall q | q in s'.tasks
      ensures Covered(s', q) && (q != s'.init ==> NotBoth(s', q))
    {
      assert Covered(s, q) && (q != s.init ==> NotBoth(s, q));
    }
    forall u, v | u in s'.threads && v in s'.threads
      ensures ForkApart(s', u, v)
    {
      assert ForkApart(s, u, v);
    }
  }

  /** The pid moves from the existing tasks to the reaped ones. */
  lemma FreeAccounted(s: State, pl: Places, t: Tid)
    requires AtFree(s, pl, t) && WaitFree(s, t).Step? && Accounted(s) && TaskOk(s, s.threads[t].collected.value)
    ensures Accounted(WaitFree(s, t).s)
  {
    NoDupConcat(s.reaped, [s.threads[t].collected.value]);
  }

  lemma FreeKeeps(s: State, pl: Places, t: Tid)
    requires Stepping(s, pl, t) && s.threads[t].pc == WaitCollect
    ensures WaitFree(s, t).Step? && InvAt(WaitFree(s, t).s, pl - {s.threads[t].collected.value})
  {
    FreeSafe(s, pl, t);
    var c := s.threads[t].collected.value;
    assert PlaceOk(s, pl, c);
    FreeUnlocked(s, pl, t);
    FreeLocks(s, pl, t);
    LocksKept(s, WaitFree(s, t).s, t);
    assert TaskOk(s, c) && ThreadOk(s, s.tasks[c].last.value);
    FreeThreads(s, pl, t);
    FreeTasks(s, pl, t);
    FreePlaces(s, pl, t);
    FreeCounts(s, pl, t);
    FreeAccounted(s, pl, t);
  }
}
