/** The last thread of a task: free siblings, hand children to init, report to the parent. */
module TaskLifeReport {
  import opened Seqs
  import opened TaskLife
  import opened TaskLifeInvariant
  import opened TaskLifeProofs
  import opened TaskLifeVanish

  // ------------------------------------------------------------------ freeing the siblings

  /** Every other thread of the task is dead and holds nothing. */
  ghost predicate SiblingsDead(s: State, t: Tid)
    requires At(s, t, VanFree)
  {
    var p := s.threads[t].task;
    forall z {:trigger z in s.tasks[p].zombies} :: z in s.tasks[p].zombies && z != t ==>
      z in s.threads && s.threads[z].pc == Gone && s.threads[z].status == Dead && s.threads[z].task == p
      && s.threads[z].collected == None
  }

  lemma SiblingsAreDead(s: State, pl: Places, t: Tid)
    requires At(s, t, VanFree) && ThreadsOk(s, pl) && TasksOk(s)
    ensures SiblingsDead(s, t)
  {
    var p := s.threads[t].task;
    assert TaskOk(s, p) && CarriesOk(s, pl, t);
    forall z | z in s.tasks[p].zombies && z != t
      ensures z in s.threads && s.threads[z].pc == Gone && s.threads[z].status == Dead && s.threads[z].task == p
              && s.threads[z].collected == None
    {
      assert MemberOk(s, p, z);
      assert ThreadOk(s, z) && CarriesOk(s, pl, z);
    }
  }

  lemma SiblingsSafe(s: State, pl: Places, t: Tid)
    requires At(s, t, VanFree) && SiblingsDead(s, t) && ThreadsOk(s, pl) && TasksOk(s) && PlacesOk(s, pl)
    ensures FreeSiblings(s, t).Step?
  {
    var p := s.threads[t].task;
    assert ThreadOk(s, t) && PcOk(s, pl, t) && CarriesOk(s, pl, t) && TaskOk(s, p) && PlaceOk(s, pl, p);
  }

  lemma SiblingsSame(s: State, pl: Places, t: Tid)
    requires At(s, t, VanFree) && SiblingsDead(s, t) && FreeSiblings(s, t).Step?
    ensures SameForPc(s, FreeSiblings(s, t).s, pl, pl)
  {
  }

  lemma SiblingsOther(s: State, pl: Places, t: Tid, u: Tid)
    requires At(s, t, VanFree) && SiblingsDead(s, t) && FreeSiblings(s, t).Step? && u != t
             && u in FreeSiblings(s, t).s.threads
    requires u in s.threads && ThreadOk(s, u) && PcOk(s, pl, u) && CarriesOk(s, pl, u) && CarriesOk(s, pl, t)
    ensures var s' := FreeSiblings(s, t).s; ThreadOk(s', u) && PcOk(s', pl, u) && CarriesOk(s', pl, u)
  {
    SiblingsSame(s, pl, t);
    PcSame(s, FreeSiblings(s, t).s, pl, pl, u);
  }

  lemma SiblingsSelf(s: State, pl: Places, t: Tid)
    requires At(s, t, VanFree) && FreeSiblings(s, t).Step? && ThreadOk(s, t) && PcOk(s, pl, t) && CarriesOk(s, pl, t)
    ensures var s' := FreeSiblings(s, t).s;
            t in s'.threads && ThreadOk(s', t) && PcOk(s', pl, t) && CarriesOk(s', pl, t)
  {
  }

  lemma SiblingsThreads(s: State, pl: Places, t: Tid)
    requires At(s, t, VanFree) && SiblingsDead(s, t) && FreeSiblings(s, t).Step? && ThreadsOk(s, pl)
    ensures ThreadsOk(FreeSiblings(s, t).s, pl)
  {
    var s' := FreeSiblings(s, t).s;
    assert ThreadOk(s, t) && PcOk(s, pl, t) && CarriesOk(s, pl, t);
    SiblingsSelf(s, pl, t);
    forall u | u in s'.threads
      ensures ThreadOk(s', u) && PcOk(s', pl, u) && CarriesOk(s', pl, u)
    {
      assert ThreadOk(s, u) && PcOk(s, pl, u) && CarriesOk(s, pl, u);
      if u != t {
        SiblingsOther(s, pl, t, u);
      }
    }
  }

  lemma SiblingsTasks(s: State, pl: Places, t: Tid)
    requires At(s, t, VanFree) && SiblingsDead(s, t) && FreeSiblings(s, t).Step? && TasksOk(s) && PlacesOk(s, pl)
    requires CarriesOk(s, pl, t)
    ensures TasksOk(FreeSiblings(s, t).s)
  {
    var s' := FreeSiblings(s, t).s;
    assert PlaceOk(s, pl, s.threads[t].task);
    forall p | p in s'.tasks
      ensures TaskOk(s', p)
    {
      assert TaskOk(s, p);
      forall u
        ensures MemberOk(s', p, u)
      {
        assert MemberOk(s, p, u);
      }
    }
  }

  lemma SiblingsPlaces(s: State, pl: Places, t: Tid)
    requires At(s, t, VanFree) && SiblingsDead(s, t) && FreeSiblings(s, t).Step? && PlacesOk(s, pl)
             && CarriesOk(s, pl, t)
    ensures PlacesOk(FreeSiblings(s, t).s, pl)
  {
    var s' := FreeSiblings(s, t).s;
    forall p | p in s'.tasks
      ensures PlaceOk(s', pl, p) && OnParentsList(s', pl, p)
    {
      assert PlaceOk(s, pl, p) && OnParentsList(s, pl, p);
    }
    forall q, p | q in s'.tasks
      ensures ListsOk(s', pl, q, p)
    {
      assert ListsOk(s, pl, q, p);
    }
  }

  lemma SiblingsCounts(s: State, t: Tid)
    requires At(s, t, VanFree) && SiblingsDead(s, t) && FreeSiblings(s, t).Step?
    requires CountsOk(s) && ForksApart(s) && Accounted(s) && LocksOk(s)
    ensures var s' := FreeSiblings(s, t).s; CountsOk(s') && ForksApart(s') && Accounted(s')
  {
    var s' := FreeSiblings(s, t).s;
    forall q | q in s'.tasks
      ensures Covered(s', q) && (q != s'.init ==> NotBoth(s', q))
    {
      assert Covered(s, q) && (q != s.init ==> NotBoth(s, q));
    }
    forall u, v | u in s'.threads && v in s'.threads
      ensures ForkApart(s', u, v)
    {
      assert ForkApart(s, u, v);
    }
  }

  lemma SiblingsLocks(s: State, t: Tid)
    requires At(s, t, VanFree) && SiblingsDead(s, t) && FreeSiblings(s, t).Step? && LocksOk(s)
    ensures LockMove(s, FreeSiblings(s, t).s, t)
  {
    assert TreeOk(s, t);
  }

  lemma SiblingsKeep(s: State, pl: Places, t: Tid)
    requires Stepping(s, pl, t) && At(s, t, VanFree)
    ensures FreeSiblings(s, t).Step? && InvAt(FreeSiblings(s, t).s, pl)
  {
    assert ThreadOk(s, t) && CarriesOk(s, pl, t);
    SiblingsAreDead(s, pl, t);
    SiblingsSafe(s, pl, t);
    SiblingsLocks(s, t);
    LocksKept(s, FreeSiblings(s, t).s, t);
    SiblingsThreads(s, pl, t);
    SiblingsTasks(s, pl, t);
    SiblingsPlaces(s, pl, t);
    SiblingsCounts(s, t);
  }

  // ------------------------------------------------------------------ entering the target's lock

  ghost predicate Entering(s: State, pl: Places, t: Tid, q: Pid, orphan: bool) {
    && At(s, t, VanWantTarget(q, orphan)) && q in s.tasks && s.tasks[q].mux == None
    && CarriesOk(s, pl, t) && PcOk(s, pl, t)
  }

  lemma EnterSafe(s: State, pl: Places, t: Tid, q: Pid, orphan: bool)
    requires Entering(s, pl, t, q, orphan) && PlacesOk(s, pl) && TasksOk(s)
    ensures EnterTarget(s, t, q, orphan).Step?
    ensures orphan ==> forall x :: x in s.tasks ==> s.threads[t].task !in s.tasks[x].active
  {
    var p := s.threads[t].task;
    assert PlaceOk(s, pl, p) && OnParentsList(s, pl, p);
    if orphan {
      forall x | x in s.tasks
        ensures p !in s.tasks[x].active
      {
        assert ListsOk(s, pl, x, p) && TaskOk(s, x);
      }
    }
  }

  lemma EnterOther(s: State, pl: Places, t: Tid, q: Pid, orphan: bool, u: Tid)
    requires Entering(s, pl, t, q, orphan) && EnterTarget(s, t, q, orphan).Step? && u in s.threads && u != t
    requires ThreadOk(s, u) && PcOk(s, pl, u) && CarriesOk(s, pl, u)
    ensures var s' := EnterTarget(s, t, q, orphan).s;
            u in s'.threads && ThreadOk(s', u) && PcOk(s', pl, u) && CarriesOk(s', pl, u)
  {
    assert SameForPc(s, EnterTarget(s, t, q, orphan).s, pl, pl);
    PcSame(s, EnterTarget(s, t, q, orphan).s, pl, pl, u);
  }

  lemma EnterSelf(s: State, pl: Places, t: Tid, q: Pid, orphan: bool)
    requires Entering(s, pl, t, q, orphan) && EnterTarget(s, t, q, orphan).Step? && ThreadOk(s, t)
    ensures var s' := EnterTarget(s, t, q, orphan).s;
            t in s'.threads && ThreadOk(s', t) && PcOk(s', pl, t) && CarriesOk(s', pl, t)
  {
  }

  lemma EnterThreads(s: State, pl: Places, t: Tid, q: Pid, orphan: bool)
    requires Entering(s, pl, t, q, orphan) && EnterTarget(s, t, q, orphan).Step? && ThreadsOk(s, pl)
    ensures ThreadsOk(EnterTarget(s, t, q, orphan).s, pl)
  {
    var s' := EnterTarget(s, t, q, orphan).s;
    assert ThreadOk(s, t);
    EnterSelf(s, pl, t, q, orphan);
    forall u | u in s'.threads
      ensures ThreadOk(s', u) && PcOk(s', pl, u) && CarriesOk(s', pl, u)
    {
      if u != t {
        assert ThreadOk(s, u) && PcOk(s, pl, u) && CarriesOk(s, pl, u);
        EnterOther(s, pl, t, q, orphan, u);
      }
    }
  }

  lemma EnterTasks(s: State, pl: Places, t: Tid, q: Pid, orphan: bool)
    requires Entering(s, pl, t, q, orphan) && EnterTarget(s, t, q, orphan).Step? && TasksOk(s)
    ensures TasksOk(EnterTarget(s, t, q, orphan).s)
  {
    var s' := EnterTarget(s, t, q, orphan).s;
    forall p | p in s'.tasks
      ensures TaskOk(s', p)
    {
      assert TaskOk(s, p);
      NoDupWithout(s.tasks[q].active, s.threads[t].task) by {
        assert TaskOk(s, q);
      }
      forall u
        ensures MemberOk(s', p, u)
      {
        assert MemberOk(s, p, u);
      }
    }
  }

  lemma EnterPlace(s: State, pl: Places, t: Tid, q: Pid, orphan: bool, p: Pid)
    requires Entering(s, pl, t, q, orphan) && EnterTarget(s, t, q, orphan).Step? && p in s.tasks
    requires PlaceOk(s, pl, p) && OnParentsList(s, pl, p)
    ensures var s' := EnterTarget(s, t, q, orphan).s;
            p in s'.tasks && PlaceOk(s', pl, p) && OnParentsList(s', pl, p)
  {
  }

  lemma EnterPlaces(s: State, pl: Places, t: Tid, q: Pid, orphan: bool)
    requires Entering(s, pl, t, q, orphan) && EnterTarget(s, t, q, orphan).Step? && PlacesOk(s, pl)
    requires orphan ==> forall x :: x in s.tasks ==> s.threads[t].task !in s.tasks[x].active
    requires NoDup(s.tasks[q].active)
    ensures PlacesOk(EnterTarget(s, t, q, orphan).s, pl)
  {
    var s' := EnterTarget(s, t, q, orphan).s;
    NoDupWithout(s.tasks[q].active, s.threads[t].task);
    forall p | p in s'.tasks
      ensures PlaceOk(s', pl, p) && OnParentsList(s', pl, p)
    {
      assert PlaceOk(s, pl, p) && OnParentsList(s, pl, p);
      EnterPlace(s, pl, t, q, orphan, p);
    }
    forall x, p | x in s'.tasks
      ensures ListsOk(s', pl, x, p)
    {
      assert ListsOk(s, pl, x, p);
    }
  }

  lemma EnterCounts(s: State, pl: Places, t: Tid, q: Pid, orphan: bool)
    requires Entering(s, pl, t, q, orphan) && EnterTarget(s, t, q, orphan).Step?
    requires CountsOk(s) && ForksApart(s) && Accounted(s) && LocksOk(s)
    ensures var s' := EnterTarget(s, t, q, orphan).s; CountsOk(s') && ForksApart(s') && Accounted(s')
  {
    var s' := EnterTarget(s, t, q, orphan).s;
    forall x | x in s'.tasks
      ensures Covered(s', x) && (x != s'.init ==> NotBoth(s', x))
    {
      assert Covered(s, x) && (x != s.init ==> NotBoth(s, x));
      assert LockOk(s, t, x);
    }
    forall u, v | u in s'.threads && v in s'.threads
      ensures ForkApart(s', u, v)
    {
      assert ForkApart(s, u, v);
    }
  }

  lemma EnterLocks(s: State, pl: Places, t: Tid, q: Pid, orphan: bool)
    requires Entering(s, pl, t, q, orphan) && EnterTarget(s, t, q, orphan).Step? && LocksOk(s)
    ensures LockMove(s, EnterTarget(s, t, q, orphan).s, t)
  {
    assert TreeOk(s, t);
  }

  lemma EnterKeeps(s: State, pl: Places, t: Tid, q: Pid, orphan: bool)
    requires Stepping(s, pl, t) && At(s, t, VanWantTarget(q, orphan))
    ensures q in s.tasks
    ensures s.tasks[q].mux == None ==>
              EnterTarget(s, t, q, orphan).Step? && InvAt(EnterTarget(s, t, q, orphan).s, pl)
  {
    assert ThreadOk(s, t) && PcOk(s, pl, t) && CarriesOk(s, pl, t);
    if s.tasks[q].mux == None {
      EnterSafe(s, pl, t, q, orphan);
      EnterLocks(s, pl, t, q, orphan);
      LocksKept(s, EnterTarget(s, t, q, orphan).s, t);
      EnterThreads(s, pl, t, q, orphan);
      EnterTasks(s, pl, t, q, orphan);
      assert TaskOk(s, q);
      EnterPlaces(s, pl, t, q, orphan);
      EnterCounts(s, pl, t, q, orphan);
    }
  }
}
