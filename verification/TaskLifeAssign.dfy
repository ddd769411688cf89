/** The dead task reaches a waiter or a list; vanished children reach init. */
module TaskLifeAssign {
  import opened Seqs
  import opened TaskLife
  import opened TaskLifeInvariant
  import opened TaskLifeProofs
  import opened TaskLifeVanish

  // ------------------------------------------------------------------ reporting to the target

  ghost predicate Reports(s: State, pl: Places, t: Tid, q: Pid, orphan: bool) {
    && At(s, t, VanHasTarget(q, orphan)) && q in s.tasks && s.tasks[q].listed && q != s.threads[t].task
    && ThreadOk(s, t) && PcOk(s, pl, t) && CarriesOk(s, pl, t) && LockOk(s, t, q)
    && TaskOk(s, q) && TaskOk(s, s.threads[t].task) && PlaceOk(s, pl, s.threads[t].task)
    && WaiterOk(s, pl, q)
  }

  /** The first waiter of a task is a blocked thread of that task. */
  ghost predicate WaiterOk(s: State, pl: Places, q: Pid)
    requires q in s.tasks
  {
    s.tasks[q].waiting != [] ==>
      var w := s.tasks[q].waiting[0];
      w in s.threads && s.threads[w].pc == WaitBlocked && s.threads[w].task == q && ThreadOk(s, w)
  }

  lemma FirstWaiter(s: State, pl: Places, q: Pid)
    requires ThreadsOk(s, pl) && TasksOk(s) && q in s.tasks
    ensures WaiterOk(s, pl, q)
  {
    if s.tasks[q].waiting != [] {
      var w := s.tasks[q].waiting[0];
      assert TaskOk(s, q) && MemberOk(s, q, w);
      assert ThreadOk(s, w);
    }
  }

  lemma ReportSafe(s: State, pl: Places, t: Tid, q: Pid, orphan: bool)
    requires Reports(s, pl, t, q, orphan) && PlacesOk(s, pl)
    ensures Report(s, t, q).Step?
  {
    var p := s.threads[t].task;
    forall x | x in s.tasks
      ensures p !in s.tasks[x].active && p !in s.tasks[x].vanished
    {
      assert ListsOk(s, pl, x, p);
    }
  }

  ghost function PlacesReported(s: State, pl: Places, t: Tid, q: Pid): Places
    requires t in s.threads && q in s.tasks
  {
    pl[s.threads[t].task := if s.tasks[q].waiting == [] then OnList(q) else Held(s.tasks[q].waiting[0])]
  }

  lemma ReportSame(s: State, pl: Places, t: Tid, q: Pid, orphan: bool)
    requires Reports(s, pl, t, q, orphan) && Report(s, t, q).Step?
    ensures SameForPc(s, Report(s, t, q).s, pl, PlacesReported(s, pl, t, q))
  {
  }

  lemma ReportPc(s: State, pl: Places, t: Tid, q: Pid, orphan: bool, u: Tid)
    requires Reports(s, pl, t, q, orphan) && Report(s, t, q).Step? && u in s.threads
    requires s.threads[u].task in s.tasks && PcOk(s, pl, u)
    requires Dying(s.threads[u].pc) ==> !s.tasks[s.threads[u].task].listed
    requires u != t && (s.tasks[q].waiting == [] || u != s.tasks[q].waiting[0])
    ensures var s' := Report(s, t, q).s;
            u in s'.threads && s'.threads[u].task in s'.tasks && PcOk(s', PlacesReported(s, pl, t, q), u)
  {
    ReportSame(s, pl, t, q, orphan);
    PcSame(s, Report(s, t, q).s, pl, PlacesReported(s, pl, t, q), u);
  }

  lemma ReportOther(s: State, pl: Places, t: Tid, q: Pid, orphan: bool, u: Tid)
    requires Reports(s, pl, t, q, orphan) && Report(s, t, q).Step? && u in s.threads
    requires ThreadOk(s, u) && CarriesOk(s, pl, u)
    requires u != t && (s.tasks[q].waiting == [] || u != s.tasks[q].waiting[0])
    ensures var s' := Report(s, t, q).s;
            u in s'.threads && ThreadOk(s', u) && CarriesOk(s', PlacesReported(s, pl, t, q), u)
  {
  }

  lemma ReportSelf(s: State, pl: Places, t: Tid, q: Pid, orphan: bool)
    requires Reports(s, pl, t, q, orphan) && Report(s, t, q).Step?
    ensures var s', pl' := Report(s, t, q).s, PlacesReported(s, pl, t, q);
            t in s'.threads && ThreadOk(s', t) && PcOk(s', pl', t) && CarriesOk(s', pl', t)
  {
  }

  lemma ReportWaiter(s: State, pl: Places, t: Tid, q: Pid, orphan: bool)
    requires Reports(s, pl, t, q, orphan) && Report(s, t, q).Step? && s.tasks[q].waiting != []
    ensures var s', pl', w := Report(s, t, q).s, PlacesReported(s, pl, t, q), s.tasks[q].waiting[0];
            w in s'.threads && ThreadOk(s', w) && PcOk(s', pl', w) && CarriesOk(s', pl', w)
  {
  }

  lemma ReportThreads(s: State, pl: Places, t: Tid, q: Pid, orphan: bool)
    requires Reports(s, pl, t, q, orphan) && Report(s, t, q).Step? && ThreadsOk(s, pl) && PlacesOk(s, pl)
    ensures ThreadsOk(Report(s, t, q).s, PlacesReported(s, pl, t, q))
  {
    var s', pl' := Report(s, t, q).s, PlacesReported(s, pl, t, q);
    ReportSelf(s, pl, t, q, orphan);
    if s.tasks[q].waiting != [] {
      ReportWaiter(s, pl, t, q, orphan);
    }
    forall u | u in s'.threads
      ensures ThreadOk(s', u) && PcOk(s', pl', u) && CarriesOk(s', pl', u)
    {
      if u != t && (s.tasks[q].waiting == [] || u != s.tasks[q].waiting[0]) {
        assert ThreadOk(s, u) && PcOk(s, pl, u) && CarriesOk(s, pl, u);
        ListedNotDying(s, pl, u);
        ReportOther(s, pl, t, q, orphan, u);
        ReportPc(s, pl, t, q, orphan, u);
      }
    }
  }

  lemma ReportMembers(s: State, pl: Places, t: Tid, q: Pid, orphan: bool, x: Pid)
    requires Reports(s, pl, t, q, orphan) && Report(s, t, q).Step? && x in s.tasks && TaskOk(s, x)
    requires s.tasks[q].waiting != [] ==> s.tasks[q].waiting[0] !in Without(s.tasks[q].waiting, s.tasks[q].waiting[0])
    ensures var s' := Report(s, t, q).s; x in s'.tasks && forall u {:trigger MemberOk(s', x, u)} :: MemberOk(s', x, u)
  {
    var s' := Report(s, t, q).s;
    forall u
      ensures MemberOk(s', x, u)
    {
      assert MemberOk(s, x, u);
    }
  }

  lemma ReportTasks(s: State, pl: Places, t: Tid, q: Pid, orphan: bool)
    requires Reports(s, pl, t, q, orphan) && Report(s, t, q).Step? && TasksOk(s)
    ensures TasksOk(Report(s, t, q).s)
  {
    var s' := Report(s, t, q).s;
    var p := s.threads[t].task;
    if s.tasks[q].waiting != [] {
      NoDupWithout(s.tasks[q].waiting, s.tasks[q].waiting[0]);
    } else {
      assert !OnSomeList(s, p);
      assert p !in s.tasks[q].vanished;
      NoDupConcat(s.tasks[q].vanished, [p]);
    }
    forall x | x in s'.tasks
      ensures TaskOk(s', x)
    {
      assert TaskOk(s, x);
      ReportMembers(s, pl, t, q, orphan, x);
    }
  }

  lemma ReportPlaces(s: State, pl: Places, t: Tid, q: Pid, orphan: bool)
    requires Reports(s, pl, t, q, orphan) && Report(s, t, q).Step? && PlacesOk(s, pl)
    ensures PlacesOk(Report(s, t, q).s, PlacesReported(s, pl, t, q))
  {
    var s', pl' := Report(s, t, q).s, PlacesReported(s, pl, t, q);
    forall p | p in s'.tasks
      ensures PlaceOk(s', pl', p) && OnParentsList(s', pl', p)
    {
      assert PlaceOk(s, pl, p) && OnParentsList(s, pl, p);
      ReportPlace(s, pl, t, q, orphan, p);
    }
    forall x, p | x in s'.tasks
      ensures ListsOk(s', pl', x, p)
    {
      assert ListsOk(s, pl, x, p);
      ReportLists(s, pl, t, q, orphan, x, p);
    }
  }

  lemma ReportPlaceOwn(s: State, pl: Places, t: Tid, q: Pid, orphan: bool)
    requires Reports(s, pl, t, q, orphan) && Report(s, t, q).Step?
    ensures var s', pl', p := Report(s, t, q).s, PlacesReported(s, pl, t, q), s.threads[t].task;
            p in s'.tasks && PlaceOk(s', pl', p) && OnParentsList(s', pl', p)
  {
  }

  lemma ReportPlaceOther(s: State, pl: Places, t: Tid, q: Pid, orphan: bool, p: Pid)
    requires Reports(s, pl, t, q, orphan) && Report(s, t, q).Step? && p in s.tasks && p != s.threads[t].task
    requires PlaceOk(s, pl, p)
    ensures var s', pl' := Report(s, t, q).s, PlacesReported(s, pl, t, q);
            p in s'.tasks && PlaceOk(s', pl', p) && (Linked(s', pl', p) ==> Linked(s, pl, p))
  {
  }

  lemma ReportPlace(s: State, pl: Places, t: Tid, q: Pid, orphan: bool, p: Pid)
    requires Reports(s, pl, t, q, orphan) && Report(s, t, q).Step? && p in s.tasks
    requires PlaceOk(s, pl, p) && OnParentsList(s, pl, p)
    ensures var s', pl' := Report(s, t, q).s, PlacesReported(s, pl, t, q);
            p in s'.tasks && PlaceOk(s', pl', p) && OnParentsList(s', pl', p)
  {
    if p == s.threads[t].task {
      ReportPlaceOwn(s, pl, t, q, orphan);
    } else {
      ReportPlaceOther(s, pl, t, q, orphan, p);
    }
  }

  lemma ReportLists(s: State, pl: Places, t: Tid, q: Pid, orphan: bool, x: Pid, p: Pid)
    requires Reports(s, pl, t, q, orphan) && Report(s, t, q).Step? && x in s.tasks && ListsOk(s, pl, x, p)
    ensures var s', pl' := Report(s, t, q).s, PlacesReported(s, pl, t, q); x in s'.tasks && ListsOk(s', pl', x, p)
  {
  }

  /** A child that leaves takes one waiter with it, so coverage survives the unlinking. */
  lemma ReportCovered(s: State, pl: Places, t: Tid, q: Pid, orphan: bool, x: Pid)
    requires At(s, t, VanHasTarget(q, orphan)) && q in s.tasks && WaiterOk(s, pl, q) && Report(s, t, q).Step?
    requires s.tasks[q].mux == Some(t) && LockOk(s, t, x)
    requires x in s.tasks && Covered(s, x) && (x != s.init ==> NotBoth(s, x))
    ensures var s' := Report(s, t, q).s; x in s'.tasks && Covered(s', x) && (x != s'.init ==> NotBoth(s', x))
  {
  }

  lemma ReportCounts(s: State, pl: Places, t: Tid, q: Pid, orphan: bool)
    requires Reports(s, pl, t, q, orphan) && Report(s, t, q).Step?
    requires CountsOk(s) && ForksApart(s) && Accounted(s) && LocksOk(s)
    ensures var s' := Report(s, t, q).s; CountsOk(s') && ForksApart(s') && Accounted(s')
  {
    var s' := Report(s, t, q).s;
    forall x | x in s'.tasks
      ensures Covered(s', x) && (x != s'.init ==> NotBoth(s', x))
    {
      assert Covered(s, x) && (x != s.init ==> NotBoth(s, x));
      assert LockOk(s, t, x);
      ReportCovered(s, pl, t, q, orphan, x);
    }
    forall u, v | u in s'.threads && v in s'.threads
      ensures ForkApart(s', u, v)
    {
      assert ForkApart(s, u, v);
    }
  }

  lemma ReportLocks(s: State, pl: Places, t: Tid, q: Pid, orphan: bool)
    requires Reports(s, pl, t, q, orphan) && Report(s, t, q).Step? && LocksOk(s)
    ensures LockMove(s, Report(s, t, q).s, t)
  {
    assert TreeOk(s, t);
  }

  lemma ReportKeeps(s: State, pl: Places, t: Tid, q: Pid, orphan: bool)
    requires Stepping(s, pl, t) && At(s, t, VanHasTarget(q, orphan))
    ensures q in s.tasks && Report(s, t, q).Step? && InvAt(Report(s, t, q).s, PlacesReported(s, pl, t, q))
  {
    var p := s.threads[t].task;
    assert ThreadOk(s, t) && PcOk(s, pl, t) && CarriesOk(s, pl, t);
    assert LockOk(s, t, q) && TaskOk(s, q) && TaskOk(s, p) && PlaceOk(s, pl, p);
    FirstWaiter(s, pl, q);
    ReportSafe(s, pl, t, q, orphan);
    ReportLocks(s, pl, t, q, orphan);
    LocksKept(s, Report(s, t, q).s, t);
    ReportThreads(s, pl, t, q, orphan);
    ReportTasks(s, pl, t, q, orphan);
    ReportPlaces(s, pl, t, q, orphan);
    ReportCounts(s, pl, t, q, orphan);
  }

  // ------------------------------------------------------------------ handing children to init

  ghost predicate Handing(s: State, pl: Places, t: Tid) {
    && At(s, t, VanHasInit) && s.init in s.tasks && s.tasks[s.init].listed && s.threads[t].task != s.init
    && ThreadOk(s, t) && PcOk(s, pl, t) && CarriesOk(s, pl, t) && LockOk(s, t, s.init)
    && TaskOk(s, s.init) && TaskOk(s, s.threads[t].task) && PlaceOk(s, pl, s.threads[t].task)
    && WaiterOk(s, pl, s.init)
  }

  ghost predicate InHandOver(s: State, t: Tid) {
    At(s, t, VanHasInit) && s.init in s.tasks && s.threads[t].task != s.init
      && s.tasks[s.threads[t].task].vanished != []
  }

  ghost function AllVanished(s: State, t: Tid): seq<Pid>
    requires t in s.threads && s.threads[t].task in s.tasks && s.init in s.tasks
  {
    s.tasks[s.init].vanished + s.tasks[s.threads[t].task].vanished
  }

  ghost function PlacesHanded(s: State, pl: Places, t: Tid): Places
    requires t in s.threads && s.threads[t].task in s.tasks && s.init in s.tasks
    requires s.tasks[s.threads[t].task].vanished != []
  {
    var moved := map x | x in pl :: if x in s.tasks[s.threads[t].task].vanished then OnList(s.init) else pl[x];
    if s.tasks[s.init].waiting == [] then moved
    else moved[AllVanished(s, t)[0] := Held(s.tasks[s.init].waiting[0])]
  }

  /** Everything on either list is a corpse whose place is that list. */
  ghost predicate ListedCorpse(s: State, pl: Places, t: Tid, c: Pid)
    requires t in s.threads && s.threads[t].task in s.tasks && s.init in s.tasks
  {
    c in AllVanished(s, t) ==>
      && c in s.tasks && c in pl && Corpse(s, c) && !s.tasks[c].listed && c != s.init && c != s.threads[t].task
      && pl[c] == (if c in s.tasks[s.init].vanished then OnList(s.init) else OnList(s.threads[t].task))
      && IsDead(s, s.tasks[c].last)
  }

  lemma AllCorpses(s: State, pl: Places, t: Tid, c: Pid)
    requires Handing(s, pl, t) && PlacesOk(s, pl) && ThreadsOk(s, pl)
    ensures ListedCorpse(s, pl, t, c)
  {
    assert ListsOk(s, pl, s.init, c) && ListsOk(s, pl, s.threads[t].task, c);
    assert c in s.tasks ==> PlaceOk(s, pl, c);
    assert c in s.tasks && s.tasks[c].last.Some? && s.tasks[c].last.value in s.threads
           ==> ThreadOk(s, s.tasks[c].last.value);
  }

  lemma HandSafe(s: State, pl: Places, t: Tid)
    requires Handing(s, pl, t) && ListedCorpse(s, pl, t, AllVanished(s, t)[0])
    ensures HandOver(s, t).Step?
  {
    var all := AllVanished(s, t);
    assert all[0] in all;
  }

  lemma HandSame(s: State, pl: Places, t: Tid)
    requires InHandOver(s, t) && HandOver(s, t).Step? && s.tasks[s.init].listed
    requires forall c {:trigger ListedCorpse(s, pl, t, c)} :: ListedCorpse(s, pl, t, c)
    ensures SameForPc(s, HandOver(s, t).s, pl, PlacesHanded(s, pl, t))
  {
    var all := AllVanished(s, t);
    assert all[0] in all;
    forall x, ct | ChildThread(s, x, ct)
      ensures ChildThread(HandOver(s, t).s, x, ct)
      ensures x in pl && (pl[x] == Live || pl[x].Forming?)
              ==> x in PlacesHanded(s, pl, t) && PlacesHanded(s, pl, t)[x] == pl[x]
    {
      assert ListedCorpse(s, pl, t, x);
    }
  }

  lemma HandPc(s: State, pl: Places, t: Tid, u: Tid)
    requires Handing(s, pl, t) && HandOver(s, t).Step? && u in s.threads
    requires forall c {:trigger ListedCorpse(s, pl, t, c)} :: ListedCorpse(s, pl, t, c)
    requires ThreadOk(s, u) && PcOk(s, pl, u) && CarriesOk(s, pl, u)
    requires u != t && (s.tasks[s.init].waiting == [] || u != s.tasks[s.init].waiting[0])
    ensures var s' := HandOver(s, t).s;
            u in s'.threads && s'.threads[u].task in s'.tasks && PcOk(s', PlacesHanded(s, pl, t), u)
  {
    assert ListedCorpse(s, pl, t, AllVanished(s, t)[0]);
    assert InHandOver(s, t);
    HandSame(s, pl, t);
    PcSame(s, HandOver(s, t).s, pl, PlacesHanded(s, pl, t), u);
  }

  lemma HandOther(s: State, pl: Places, t: Tid, u: Tid)
    requires Handing(s, pl, t) && HandOver(s, t).Step? && u in s.threads
    requires forall c {:trigger ListedCorpse(s, pl, t, c)} :: ListedCorpse(s, pl, t, c)
    requires ThreadOk(s, u) && CarriesOk(s, pl, u)
    requires u != t && (s.tasks[s.init].waiting == [] || u != s.tasks[s.init].waiting[0])
    ensures var s' := HandOver(s, t).s;
            u in s'.threads && ThreadOk(s', u) && CarriesOk(s', PlacesHanded(s, pl, t), u)
  {
    assert ListedCorpse(s, pl, t, AllVanished(s, t)[0]) && ListedCorpse(s, pl, t, s.threads[u].task);
    if s.threads[u].collected.Some? {
      assert ListedCorpse(s, pl, t, s.threads[u].collected.value);
    }
  }

  lemma HandSelf(s: State, pl: Places, t: Tid)
    requires Handing(s, pl, t) && HandOver(s, t).Step? && ListedCorpse(s, pl, t, s.threads[t].task)
    ensures var s', pl' := HandOver(s, t).s, PlacesHanded(s, pl, t);
            t in s'.threads && ThreadOk(s', t) && PcOk(s', pl', t) && CarriesOk(s', pl', t)
  {
  }

  lemma HandWaiter(s: State, pl: Places, t: Tid)
    requires Handing(s, pl, t) && HandOver(s, t).Step? && s.tasks[s.init].waiting != []
    ensures var s', pl', w := HandOver(s, t).s, PlacesHanded(s, pl, t), s.tasks[s.init].waiting[0];
            w in s'.threads && ThreadOk(s', w) && PcOk(s', pl', w) && CarriesOk(s', pl', w)
  {
  }

  lemma HandThreads(s: State, pl: Places, t: Tid)
    requires Handing(s, pl, t) && HandOver(s, t).Step? && ThreadsOk(s, pl)
    requires forall c {:trigger ListedCorpse(s, pl, t, c)} :: ListedCorpse(s, pl, t, c)
    ensures ThreadsOk(HandOver(s, t).s, PlacesHanded(s, pl, t))
  {
    var s', pl' := HandOver(s, t).s, PlacesHanded(s, pl, t);
    assert ListedCorpse(s, pl, t, s.threads[t].task);
    HandSelf(s, pl, t);
    if s.tasks[s.init].waiting != [] {
      HandWaiter(s, pl, t);
    }
    forall u | u in s'.threads
      ensures ThreadOk(s', u) && PcOk(s', pl', u) && CarriesOk(s', pl', u)
    {
      if u != t && (s.tasks[s.init].waiting == [] || u != s.tasks[s.init].waiting[0]) {
        assert ThreadOk(s, u) && PcOk(s, pl, u) && CarriesOk(s, pl, u);
        HandOther(s, pl, t, u);
        HandPc(s, pl, t, u);
      }
    }
  }

  /** The first waiter is queued once. */
  ghost predicate WaiterOnce(s: State, q: Pid)
    requires q in s.tasks
  {
    var ws := s.tasks[q].waiting;
    ws != [] ==> NoDup(Without(ws, ws[0])) && ws[0] !in Without(ws, ws[0])
  }

  lemma HandMember(s: State, pl: Places, t: Tid, x: Pid, u: Tid)
    requires At(s, t, VanHasInit) && s.init in s.tasks && HandOver(s, t).Step? && x in s.tasks && MemberOk(s, x, u)
    requires WaiterOk(s, pl, s.init) && WaiterOnce(s, s.init)
    ensures x in HandOver(s, t).s.tasks && MemberOk(HandOver(s, t).s, x, u)
  {
  }

  lemma HandMembers(s: State, pl: Places, t: Tid, x: Pid)
    requires At(s, t, VanHasInit) && s.init in s.tasks && HandOver(s, t).Step? && x in s.tasks && TaskOk(s, x)
    requires WaiterOk(s, pl, s.init) && WaiterOnce(s, s.init) && x in HandOver(s, t).s.tasks
    ensures forall u {:trigger MemberOk(HandOver(s, t).s, x, u)} :: MemberOk(HandOver(s, t).s, x, u)
  {
    forall u
      ensures MemberOk(HandOver(s, t).s, x, u)
    {
      assert MemberOk(s, x, u);
      HandMember(s, pl, t, x, u);
    }
  }

  lemma VanishedApart(s: State, pl: Places, t: Tid, c: Pid)
    requires Handing(s, pl, t) && ListedCorpse(s, pl, t, c) && ListsOk(s, pl, s.threads[t].task, c)
    requires c in s.tasks[s.init].vanished
    ensures c !in s.tasks[s.threads[t].task].vanished
  {
    assert c in AllVanished(s, t);
  }

  /** Q_APPEND joins two lists without a common element. */
  lemma HandLists(s: State, pl: Places, t: Tid)
    requires Handing(s, pl, t)
    requires forall c {:trigger ListedCorpse(s, pl, t, c)} :: ListedCorpse(s, pl, t, c)
    requires forall c {:trigger ListsOk(s, pl, s.threads[t].task, c)} :: ListsOk(s, pl, s.threads[t].task, c)
    ensures OnceVanished(s, t)
    ensures AllVanished(s, t)[0] !in Without(AllVanished(s, t), AllVanished(s, t)[0])
  {
    var p := s.threads[t].task;
    forall c | c in s.tasks[s.init].vanished
      ensures c !in s.tasks[p].vanished
    {
      assert ListedCorpse(s, pl, t, c) && ListsOk(s, pl, p, c);
      VanishedApart(s, pl, t, c);
    }
    NoDupConcat(s.tasks[s.init].vanished, s.tasks[p].vanished);
    NoDupWithout(AllVanished(s, t), AllVanished(s, t)[0]);
  }

  ghost predicate OnceVanished(s: State, t: Tid)
    requires t in s.threads && s.threads[t].task in s.tasks && s.init in s.tasks
  {
    var all := AllVanished(s, t);
    all != [] && NoDup(all) && NoDup(Without(all, all[0]))
  }

  lemma HandTask(s: State, pl: Places, t: Tid, x: Pid)
    requires Handing(s, pl, t) && HandOver(s, t).Step? && x in s.tasks && TaskOk(s, x)
    requires OnceVanished(s, t) && WaiterOnce(s, s.init) && x in HandOver(s, t).s.tasks
    requires forall u {:trigger MemberOk(HandOver(s, t).s, x, u)} :: MemberOk(HandOver(s, t).s, x, u)
    ensures TaskOk(HandOver(s, t).s, x)
  {
    assert AllVanished(s, t)[0] in AllVanished(s, t);
  }

  lemma HandTasks(s: State, pl: Places, t: Tid)
    requires Handing(s, pl, t) && HandOver(s, t).Step? && TasksOk(s)
    requires OnceVanished(s, t)
    ensures TasksOk(HandOver(s, t).s)
  {
    if s.tasks[s.init].waiting != [] {
      NoDupWithout(s.tasks[s.init].waiting, s.tasks[s.init].waiting[0]);
    }
    assert WaiterOnce(s, s.init);
    forall x | x in HandOver(s, t).s.tasks
      ensures TaskOk(HandOver(s, t).s, x)
    {
      assert TaskOk(s, x);
      HandMembers(s, pl, t, x);
      HandTask(s, pl, t, x);
    }
  }

  lemma HandPlaceKept(s: State, pl: Places, t: Tid, p: Pid)
    requires InHandOver(s, t) && HandOver(s, t).Step? && p in s.tasks && PlaceOk(s, pl, p)
    requires p !in AllVanished(s, t) && WaiterOk(s, pl, s.init) && s.tasks[s.init].listed
    ensures var s', pl' := HandOver(s, t).s, PlacesHanded(s, pl, t); p in s'.tasks && PlaceOk(s', pl', p)
  {
    assert AllVanished(s, t)[0] in AllVanished(s, t);
  }

  lemma HandPlaceMoved(s: State, pl: Places, t: Tid, p: Pid)
    requires InHandOver(s, t) && HandOver(s, t).Step? && p in s.tasks && ListedCorpse(s, pl, t, p)
    requires p in AllVanished(s, t) && WaiterOk(s, pl, s.init)
    ensures var s', pl' := HandOver(s, t).s, PlacesHanded(s, pl, t); p in s'.tasks && PlaceOk(s', pl', p)
  {
  }

  lemma HandLinked(s: State, pl: Places, t: Tid, p: Pid)
    requires Handing(s, pl, t) && HandOver(s, t).Step? && p in s.tasks && ListedCorpse(s, pl, t, p)
    ensures var s', pl' := HandOver(s, t).s, PlacesHanded(s, pl, t);
            p in s'.tasks && (Linked(s, pl, p) <==> Linked(s', pl', p))
  {
    assert AllVanished(s, t)[0] in AllVanished(s, t);
  }

  lemma HandOnParentsList(s: State, pl: Places, t: Tid, p: Pid)
    requires Handing(s, pl, t) && HandOver(s, t).Step? && p in s.tasks && OnParentsList(s, pl, p)
    requires p in HandOver(s, t).s.tasks && (Linked(HandOver(s, t).s, PlacesHanded(s, pl, t), p) ==> Linked(s, pl, p))
    ensures OnParentsList(HandOver(s, t).s, PlacesHanded(s, pl, t), p)
  {
  }

  lemma HandListed(s: State, pl: Places, t: Tid, x: Pid, p: Pid)
    requires Handing(s, pl, t) && HandOver(s, t).Step? && x in s.tasks && ListsOk(s, pl, x, p)
    requires ListedCorpse(s, pl, t, p)
    requires p in s.tasks && Linked(s, pl, p) ==> Linked(HandOver(s, t).s, PlacesHanded(s, pl, t), p)
    requires AllVanished(s, t)[0] !in Without(AllVanished(s, t), AllVanished(s, t)[0])
    ensures var s', pl' := HandOver(s, t).s, PlacesHanded(s, pl, t); x in s'.tasks && ListsOk(s', pl', x, p)
  {
    assert AllVanished(s, t)[0] in AllVanished(s, t);
  }

  lemma HandPlaces(s: State, pl: Places, t: Tid)
    requires Handing(s, pl, t) && HandOver(s, t).Step? && PlacesOk(s, pl)
    requires forall c {:trigger ListedCorpse(s, pl, t, c)} :: ListedCorpse(s, pl, t, c)
    requires AllVanished(s, t)[0] !in Without(AllVanished(s, t), AllVanished(s, t)[0])
    ensures PlacesOk(HandOver(s, t).s, PlacesHanded(s, pl, t))
  {
    var s', pl' := HandOver(s, t).s, PlacesHanded(s, pl, t);
    assert ListedCorpse(s, pl, t, AllVanished(s, t)[0]);
    assert AllVanished(s, t)[0] in AllVanished(s, t) && InHandOver(s, t);
    forall p | p in s'.tasks
      ensures PlaceOk(s', pl', p) && OnParentsList(s', pl', p)
    {
      assert PlaceOk(s, pl, p) && OnParentsList(s, pl, p);
      assert ListedCorpse(s, pl, t, p);
      HandLinked(s, pl, t, p);
      HandOnParentsList(s, pl, t, p);
      if p in AllVanished(s, t) {
        HandPlaceMoved(s, pl, t, p);
      } else {
        HandPlaceKept(s, pl, t, p);
      }
    }
    forall x, p | x in s'.tasks
      ensures ListsOk(s', pl', x, p)
    {
      assert ListsOk(s, pl, x, p) && ListedCorpse(s, pl, t, p);
      if p in s.tasks {
        assert OnParentsList(s, pl, p);
        HandLinked(s, pl, t, p);
      }
      HandListed(s, pl, t, x, p);
    }
  }

  lemma HandCovered(s: State, pl: Places, t: Tid, x: Pid)
    requires InHandOver(s, t) && HandOver(s, t).Step? && WaiterOk(s, pl, s.init) && s.tasks[s.init].mux == Some(t)
    requires x in s.tasks && Covered(s, x) && (x != s.init ==> NotBoth(s, x))
    ensures var s' := HandOver(s, t).s; x in s'.tasks && Covered(s', x) && (x != s'.init ==> NotBoth(s', x))
  {
  }

  lemma HandCounts(s: State, pl: Places, t: Tid)
    requires InHandOver(s, t) && HandOver(s, t).Step? && WaiterOk(s, pl, s.init) && s.tasks[s.init].mux == Some(t)
    requires CountsOk(s) && ForksApart(s) && Accounted(s)
    ensures var s' := HandOver(s, t).s; CountsOk(s') && ForksApart(s') && Accounted(s')
  {
    var s' := HandOver(s, t).s;
    forall x | x in s'.tasks
      ensures Covered(s', x) && (x != s'.init ==> NotBoth(s', x))
    {
      assert Covered(s, x) && (x != s.init ==> NotBoth(s, x));
      HandCovered(s, pl, t, x);
    }
    forall u, v | u in s'.threads && v in s'.threads
      ensures ForkApart(s', u, v)
    {
      assert ForkApart(s, u, v);
    }
  }

  lemma HandLocks(s: State, pl: Places, t: Tid)
    requires InHandOver(s, t) && HandOver(s, t).Step? && s.tasks[s.init].mux == Some(t) && WaiterOk(s, pl, s.init)
    requires TreeOk(s, t)
    ensures LockMove(s, HandOver(s, t).s, t)
  {
    var s' := HandOver(s, t).s;
    forall u | u != t
      ensures Holds(s', u) == Holds(s, u) && HasTree(s', u) == HasTree(s, u)
    {
    }
    forall q
      ensures MuxAt(s', q) == MuxAfter(Holds(s, t), Holds(s', t), t, q, MuxAt(s, q))
    {
    }
  }

  /** What the proofs about the transfer start from. */
  lemma HandFacts(s: State, pl: Places, t: Tid)
    requires Stepping(s, pl, t) && At(s, t, VanHasInit)
    ensures Handing(s, pl, t) && s.tasks[s.threads[t].task].vanished != []
    ensures forall c {:trigger ListedCorpse(s, pl, t, c)} :: ListedCorpse(s, pl, t, c)
  {
    var p := s.threads[t].task;
    assert ThreadOk(s, t) && PcOk(s, pl, t) && CarriesOk(s, pl, t);
    assert LockOk(s, t, s.init) && TreeOk(s, t) && TaskOk(s, s.init) && TaskOk(s, p) && PlaceOk(s, pl, p);
    FirstWaiter(s, pl, s.init);
    forall c
      ensures ListedCorpse(s, pl, t, c)
    {
      AllCorpses(s, pl, t, c);
    }
  }

  lemma HandKeeps(s: State, pl: Places, t: Tid)
    requires Stepping(s, pl, t) && At(s, t, VanHasInit)
    ensures s.tasks[s.threads[t].task].vanished != []
    ensures HandOver(s, t).Step? && InvAt(HandOver(s, t).s, PlacesHanded(s, pl, t))
  {
    HandFacts(s, pl, t);
    assert ListedCorpse(s, pl, t, AllVanished(s, t)[0]) && TaskOk(s, s.init);
    HandSafe(s, pl, t);
    HandLists(s, pl, t);
    assert InHandOver(s, t);
    HandLocks(s, pl, t);
    LocksKept(s, HandOver(s, t).s, t);
    HandThreads(s, pl, t);
    HandTasks(s, pl, t);
    HandPlaces(s, pl, t);
    HandCounts(s, pl, t);
  }
}
