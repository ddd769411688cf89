/** _vanish keeps the invariant, up to the point where a dead task looks for a parent. */
module TaskLifeVanish {
  import opened Seqs
  import opened TaskLife
  import opened TaskLifeInvariant
  import opened TaskLifeProofs

  ghost predicate At(s: State, t: Tid, pc: Pc) {
    t in s.threads && s.threads[t].task in s.tasks && s.threads[t].pc == pc && s.threads[t].status == Ready
  }

  /** No thread of a listed task is past its task's removal. */
  lemma ListedNotDying(s: State, pl: Places, u: Tid)
    requires u in s.threads && ThreadsOk(s, pl) && PlacesOk(s, pl)
    ensures s.threads[u].task in s.tasks
    ensures s.tasks[s.threads[u].task].listed ==> !Dying(s.threads[u].pc)
  {
    assert ThreadOk(s, u) && CarriesOk(s, pl, u);
    assert PlaceOk(s, pl, s.threads[u].task);
  }

  ghost predicate SameForPc(s: State, s': State, pl: Places, pl': Places) {
    && s'.init == s.init && s'.tasks.Keys == s.tasks.Keys
    && (forall x, ct {:trigger ChildThread(s, x, ct)} :: ChildThread(s, x, ct) ==>
          && ChildThread(s', x, ct)
          && (x in pl && (pl[x] == Live || pl[x].Forming?) ==> x in pl' && pl'[x] == pl[x]))
    && (forall x {:trigger s'.tasks[x]} :: x in s'.tasks && s'.tasks[x].listed ==> s.tasks[x].listed)
    && (forall x {:trigger s'.tasks[x]} :: x in s'.tasks ==> s'.tasks[x].parent == s.tasks[x].parent)
  }

  /** A program counter keeps its meaning when nothing it refers to has changed. */
  lemma PcSame(s: State, s': State, pl: Places, pl': Places, u: Tid)
    requires u in s.threads && u in s'.threads && s'.threads[u].pc == s.threads[u].pc
             && s'.threads[u].task == s.threads[u].task
    requires s.threads[u].task in s.tasks && SameForPc(s, s', pl, pl') && PcOk(s, pl, u)
    requires var k, k' := s.tasks[s.threads[u].task], s'.tasks[s.threads[u].task];
             Dying(s.threads[u].pc) ==> k'.last == k.last && k'.zombies == k.zombies && k'.vanished == k.vanished
                                        && k'.numVanished == k.numVanished
    requires s.threads[u].pc.VanWantTarget? || s.threads[u].pc.VanHasTarget?
             ==> s.threads[u].pc.target in s'.tasks && s'.tasks[s.threads[u].pc.target].listed
    ensures PcOk(s', pl', u)
  {
  }

  // ------------------------------------------------------------------ leaving the task: common part

  ghost predicate Leaving(s: State, pl: Places, t: Tid) {
    && At(s, t, VanHasBoth) && LocksOk(s) && ThreadsOk(s, pl) && TasksOk(s) && PlacesOk(s, pl)
  }

  /** What the locks and the thread list say about a task one of whose threads is in the region. */
  lemma LeavingFacts(s: State, pl: Places, t: Tid)
    requires Leaving(s, pl, t)
    ensures var p := s.threads[t].task;
            && p != s.init && pl[p] == Live && s.tasks[p].listed && s.tasks[p].mux == Some(t) && s.tree == Some(t)
            && t in s.tasks[p].threads && t !in s.tasks[p].zombies
            && LeaveTask(s, t).Step?
  {
    var p := s.threads[t].task;
    assert ThreadOk(s, t) && TaskOk(s, p) && PlaceOk(s, pl, p);
    assert LockOk(s, t, p) && TreeOk(s, t);
    assert MemberOk(s, p, t);
    var w := if pl[p].Forming? then pl[p].who else t;
    assert ThreadOk(s, w) && PcOk(s, pl, w);
  }

  lemma LeaveLocks(s: State, t: Tid)
    requires At(s, t, VanHasBoth) && LocksOk(s) && LeaveTask(s, t).Step?
    ensures LockMove(s, LeaveTask(s, t).s, t)
  {
    assert LockOk(s, t, s.threads[t].task) && TreeOk(s, t);
  }

  ghost predicate IsLast(s: State, t: Tid)
    requires t in s.threads && s.threads[t].task in s.tasks
  {
    s.tasks[s.threads[t].task].numThreads == 1
  }

  ghost function PlacesLeft(s: State, pl: Places, t: Tid): Places
    requires t in s.threads && s.threads[t].task in s.tasks
  {
    if IsLast(s, t) then pl[s.threads[t].task := Carried(t)] else pl
  }

  lemma LeaveTasks(s: State, pl: Places, t: Tid)
    requires Leaving(s, pl, t) && LeaveTask(s, t).Step?
    ensures TasksOk(LeaveTask(s, t).s)
  {
    var s' := LeaveTask(s, t).s;
    LeavingFacts(s, pl, t);
    forall p | p in s'.tasks
      ensures TaskOk(s', p)
    {
      assert TaskOk(s, p);
      if p == s.threads[t].task {
        LeaveOwnTask(s, pl, t);
      } else {
        forall u
          ensures MemberOk(s', p, u)
        {
          assert MemberOk(s, p, u);
        }
      }
    }
  }

  lemma NoWaiterLeft(s: State, pl: Places, t: Tid)
    requires Leaving(s, pl, t) && s.tasks[s.threads[t].task].threads == [t]
    ensures s.tasks[s.threads[t].task].waiting == []
  {
    var k := s.tasks[s.threads[t].task];
    var w := if k.waiting == [] then t else k.waiting[0];
    assert TaskOk(s, s.threads[t].task) && MemberOk(s, s.threads[t].task, w);
    assert w in s.threads ==> ThreadOk(s, w);
  }

  lemma LeaveOwnTask(s: State, pl: Places, t: Tid)
    requires Leaving(s, pl, t) && LeaveTask(s, t).Step?
    ensures TaskOk(LeaveTask(s, t).s, s.threads[t].task)
  {
    var p := s.threads[t].task;
    var k := s.tasks[p];
    LeavingFacts(s, pl, t);
    assert TaskOk(s, p);
    NoDupWithout(k.threads, t);
    NoDupConcat(k.zombies, [t]);
    if IsLast(s, t) {
      assert k.threads == [t];
      NoWaiterLeft(s, pl, t);
    }
    LeaveOwnMembers(s, t);
  }

  lemma LeaveOwnMembers(s: State, t: Tid)
    requires At(s, t, VanHasBoth) && LeaveTask(s, t).Step? && TaskOk(s, s.threads[t].task)
    ensures forall u {:trigger MemberOk(LeaveTask(s, t).s, s.threads[t].task, u)} ::
              MemberOk(LeaveTask(s, t).s, s.threads[t].task, u)
  {
    var p := s.threads[t].task;
    NoDupWithout(s.tasks[p].threads, t);
    forall u
      ensures MemberOk(LeaveTask(s, t).s, p, u)
    {
      assert MemberOk(s, p, u);
    }
  }

  lemma LeaveSelf(s: State, pl: Places, t: Tid)
    requires At(s, t, VanHasBoth) && LeaveTask(s, t).Step? && ThreadOk(s, t) && TaskOk(s, s.threads[t].task)
    requires s.tasks[s.threads[t].task].listed && s.threads[t].task in pl
    ensures var s', pl' := LeaveTask(s, t).s, PlacesLeft(s, pl, t);
            t in s'.threads && ThreadOk(s', t) && PcOk(s', pl', t) && CarriesOk(s', pl', t)
  {
  }

  lemma LeaveOther(s: State, pl: Places, t: Tid, u: Tid)
    requires At(s, t, VanHasBoth) && LeaveTask(s, t).Step? && u in s.threads && u != t
    requires ThreadOk(s, u) && CarriesOk(s, pl, u)
    requires !Dying(s.threads[u].pc) || s.threads[u].task != s.threads[t].task
    requires s.threads[t].task in pl && pl[s.threads[t].task] == Live
    ensures var s', pl' := LeaveTask(s, t).s, PlacesLeft(s, pl, t);
            u in s'.threads && ThreadOk(s', u) && CarriesOk(s', pl', u)
  {
  }

  lemma LeaveSame(s: State, pl: Places, t: Tid)
    requires Leaving(s, pl, t) && LeaveTask(s, t).Step?
    ensures SameForPc(s, LeaveTask(s, t).s, pl, PlacesLeft(s, pl, t))
  {
    LeavingFacts(s, pl, t);
    var p := s.threads[t].task;
    forall x, ct | ChildThread(s, x, ct)
      ensures ChildThread(LeaveTask(s, t).s, x, ct)
    {
      NotTheChild(s, p, t, ct);
    }
  }

  lemma NotTheChild(s: State, p: Pid, t: Tid, ct: Tid)
    requires p in s.tasks && t in s.tasks[p].threads && t in s.threads && s.threads[t].status == Ready
    ensures !ChildThread(s, p, ct)
  {
    assert s.tasks[p].threads == [ct] ==> t in [ct];
  }

  /** A thread reporting to a task holds a lock that the leaving thread holds. */
  lemma LeaveTargets(s: State, pl: Places, t: Tid, u: Tid)
    requires Leaving(s, pl, t) && LeaveTask(s, t).Step? && u in s.threads && u != t
    requires s.threads[u].task in s.tasks && PcOk(s, pl, u)
    requires s.threads[u].pc.VanWantTarget? || s.threads[u].pc.VanHasTarget?
    ensures var s' := LeaveTask(s, t).s; s.threads[u].pc.target in s'.tasks && s'.tasks[s.threads[u].pc.target].listed
  {
    assert LockOk(s, u, s.threads[t].task) && LockOk(s, t, s.threads[t].task) && TreeOk(s, u) && TreeOk(s, t);
  }

  lemma LeaveOtherPc(s: State, pl: Places, t: Tid, u: Tid)
    requires Leaving(s, pl, t) && LeaveTask(s, t).Step? && u in s.threads && u != t
    requires s.threads[u].task in s.tasks && PcOk(s, pl, u)
    requires !Dying(s.threads[u].pc) || s.threads[u].task != s.threads[t].task
    ensures var s' := LeaveTask(s, t).s; u in s'.threads && s'.threads[u].task in s'.tasks
    ensures PcOk(LeaveTask(s, t).s, PlacesLeft(s, pl, t), u)
  {
    if s.threads[u].pc.VanWantTarget? || s.threads[u].pc.VanHasTarget? {
      LeaveTargets(s, pl, t, u);
    }
    LeaveSame(s, pl, t);
    PcSame(s, LeaveTask(s, t).s, pl, PlacesLeft(s, pl, t), u);
  }

  lemma LeaveThreads(s: State, pl: Places, t: Tid)
    requires Leaving(s, pl, t) && LeaveTask(s, t).Step?
    ensures ThreadsOk(LeaveTask(s, t).s, PlacesLeft(s, pl, t))
  {
    var s' := LeaveTask(s, t).s;
    var pl' := PlacesLeft(s, pl, t);
    LeavingFacts(s, pl, t);
    assert ThreadOk(s, t) && TaskOk(s, s.threads[t].task);
    LeaveSelf(s, pl, t);
    forall u | u in s'.threads
      ensures ThreadOk(s', u) && PcOk(s', pl', u) && CarriesOk(s', pl', u)
    {
      ListedNotDying(s, pl, u);
      if u != t {
        assert ThreadOk(s, u) && PcOk(s, pl, u) && CarriesOk(s, pl, u);
        LeaveOther(s, pl, t, u);
        LeaveOtherPc(s, pl, t, u);
      }
    }
  }

  lemma LeavePlaces(s: State, pl: Places, t: Tid)
    requires Leaving(s, pl, t) && LeaveTask(s, t).Step?
    ensures PlacesOk(LeaveTask(s, t).s, PlacesLeft(s, pl, t))
  {
    var s' := LeaveTask(s, t).s;
    var pl' := PlacesLeft(s, pl, t);
    LeavingFacts(s, pl, t);
    assert TaskOk(s, s.threads[t].task) && ThreadOk(s, t);
    forall p | p in s'.tasks
      ensures PlaceOk(s', pl', p) && OnParentsList(s', pl', p)
    {
      assert PlaceOk(s, pl, p) && OnParentsList(s, pl, p);
    }
    forall q, p | q in s'.tasks
      ensures ListsOk(s', pl', q, p)
    {
      assert ListsOk(s, pl, q, p);
    }
  }

  lemma LeaveCounts(s: State, pl: Places, t: Tid)
    requires Leaving(s, pl, t) && LeaveTask(s, t).Step? && CountsOk(s) && ForksApart(s) && Accounted(s)
    requires IsLast(s, t) ==> s.tasks[s.threads[t].task].waiting == []
    ensures var s' := LeaveTask(s, t).s; CountsOk(s') && ForksApart(s') && Accounted(s')
  {
    var s' := LeaveTask(s, t).s;
    LeavingFacts(s, pl, t);
    forall q | q in s'.tasks
      ensures Covered(s', q) && (q != s'.init ==> NotBoth(s', q))
    {
      assert Covered(s, q) && (q != s.init ==> NotBoth(s, q));
    }
    forall u, v | u in s'.threads && v in s'.threads
      ensures ForkApart(s', u, v)
    {
      assert ForkApart(s, u, v);
    }
  }

  lemma LeaveKeeps(s: State, pl: Places, t: Tid)
    requires Stepping(s, pl, t) && At(s, t, VanHasBoth)
    ensures LeaveTask(s, t).Step? && InvAt(LeaveTask(s, t).s, PlacesLeft(s, pl, t))
  {
    LeavingFacts(s, pl, t);
    LeaveLocks(s, t);
    LocksKept(s, LeaveTask(s, t).s, t);
    LeaveThreads(s, pl, t);
    LeaveTasks(s, pl, t);
    LeavePlaces(s, pl, t);
    assert TaskOk(s, s.threads[t].task);
    if IsLast(s, t) {
      assert s.tasks[s.threads[t].task].threads == [t];
      NoWaiterLeft(s, pl, t);
    }
    LeaveCounts(s, pl, t);
  }
}
