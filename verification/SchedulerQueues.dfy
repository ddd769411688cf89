/** One link, one queue: how each scheduler operation moves threads between queues. */
module SchedulerQueues {
  import opened Seqs
  import opened Scheduler
  import opened SchedulerInvariant

  // ------------------------------------------------------------------ queues while a step is under way

  /** The running thread goes to the tail of the runnable queue. */
  lemma AddSelf(s: State, h: Homes, hole: Option<Tid>)
    requires QueuesOk(s, h, hole) && h[s.running] == Runs
    ensures QueuesOk(AddToRun(s, s.running), h[s.running := Queued], hole)
  {
    AddIs(s, h, hole, s.running);
  }

  /** A thread on no queue, or the running one, goes to the tail of the runnable queue. */
  lemma AddIs(s: State, h: Homes, hole: Option<Tid>, u: Tid)
    requires QueuesOk(s, h, hole) && u in s.status
    requires h[u] == Runs || h[u] == Off
    ensures QueuesOk(AddToRun(s, u), h[u := Queued], if hole == Some(u) then None else hole)
  {
    var s', h', hole' := AddToRun(s, u), h[u := Queued], if hole == Some(u) then None else hole;
    assert ListsOk(s, h, u);
    NoDupAppend(s.runq, u);
    forall m
      ensures NoDupAt(s', m)
    {
      assert NoDupAt(s, m);
    }
    forall t | t in s'.status
      ensures HomeOk(s', h', hole', t)
    {
      assert HomeOk(s, h, hole, t);
    }
    AddLists(s, h, hole, u);
  }

  lemma AddLists(s: State, h: Homes, hole: Option<Tid>, u: Tid)
    requires QueuesOk(s, h, hole) && u in s.status
    requires h[u] == Runs || h[u] == Off
    ensures var s', h' := AddToRun(s, u), h[u := Queued];
            && (forall t :: ListsOk(s', h', t))
            && (forall m, t :: WaitersOk(s', h', m, t))
            && (forall x :: CarryOk(s', h', x))
            && (ScanCarries(s').Some? ==> ScanCarries(s').value in h' && h'[ScanCarries(s').value] == CarriedByScan)
  {
    var s', h' := AddToRun(s, u), h[u := Queued];
    forall t
      ensures ListsOk(s', h', t)
    {
      assert ListsOk(s, h, t);
    }
    forall m, t
      ensures WaitersOk(s', h', m, t)
    {
      assert WaitersOk(s, h, m, t);
    }
    forall x
      ensures CarryOk(s', h', x)
    {
      assert CarryOk(s, h, x);
    }
  }

  /** Nothing but the running thread's queue-less place is missing from OneQueue. */
  ghost predicate Stored(s: State, h: Homes) {
    QueuesOk(s, h, None) && h[s.running] != Runs
  }

  /** Some thread outside every queue runs next. */
  lemma RunNext(s: State, h: Homes, u: Tid)
    requires QueuesOk(s, h, Some(u)) && h[s.running] != Runs && u in h && h[u] == Off
    ensures OneQueue(WithStatus(s, u, Running).(running := u), h[u := Runs])
  {
    var s', h' := WithStatus(s, u, Running).(running := u), h[u := Runs];
    forall m
      ensures NoDupAt(s', m)
    {
      assert NoDupAt(s, m);
    }
    forall t | t in s'.status
      ensures HomeOk(s', h', None, t)
    {
      assert HomeOk(s, h, Some(u), t);
    }
    forall t
      ensures ListsOk(s', h', t)
    {
      assert ListsOk(s, h, t);
    }
    forall m, t
      ensures WaitersOk(s', h', m, t)
    {
      assert WaitersOk(s, h, m, t);
    }
    forall x
      ensures CarryOk(s', h', x)
    {
      assert CarryOk(s, h, x);
    }
  }

  /** A runnable thread leaves the runnable queue. */
  lemma TakeOff(s: State, h: Homes, u: Tid, q: seq<Tid>)
    requires QueuesOk(s, h, None) && u in s.runq
    requires NoDup(q) && u !in q && forall t :: t in q <==> t in s.runq && t != u
    ensures u in h && QueuesOk(s.(runq := q), h[u := Off], Some(u))
    ensures s.status[u] == Runnable
  {
    assert ListsOk(s, h, u) && HomeOk(s, h, None, u);
    var s', h' := s.(runq := q), h[u := Off];
    forall m
      ensures NoDupAt(s', m)
    {
      assert NoDupAt(s, m);
    }
    forall t | t in s'.status
      ensures HomeOk(s', h', Some(u), t)
    {
      assert HomeOk(s, h, None, t);
    }
    forall t
      ensures ListsOk(s', h', t)
    {
      assert ListsOk(s, h, t);
    }
    forall m, t
      ensures WaitersOk(s', h', m, t)
    {
      assert WaitersOk(s, h, m, t);
    }
    forall x
      ensures CarryOk(s', h', x)
    {
      assert CarryOk(s, h, x);
    }
  }

  /** The count of get_next_run is history: no queue depends on it. */
  lemma Picked(s: State, h: Homes, hole: Option<Tid>, n: nat)
    requires QueuesOk(s, h, hole)
    ensures QueuesOk(s.(picks := n), h, hole)
  {
    var s' := s.(picks := n);
    forall m
      ensures NoDupAt(s', m)
    {
      assert NoDupAt(s, m);
    }
    forall t | t in s'.status
      ensures HomeOk(s', h, hole, t)
    {
      assert HomeOk(s, h, hole, t);
    }
    forall t
      ensures ListsOk(s', h, t)
    {
      assert ListsOk(s, h, t);
    }
    forall m, t
      ensures WaitersOk(s', h, m, t)
    {
      assert WaitersOk(s, h, m, t);
    }
    forall x
      ensures CarryOk(s', h, x)
    {
      assert CarryOk(s, h, x);
    }
  }

  /** The running thread swaps to itself: it goes back to where it ran. */
  lemma RunSelf(s: State, h: Homes)
    requires QueuesOk(s, h, Some(s.running)) && h[s.running] == Off && s.status[s.running] == Runnable
    ensures OneQueue(s, h[s.running := Runs])
  {
    var h' := h[s.running := Runs];
    forall t | t in s.status
      ensures HomeOk(s, h', None, t)
    {
      assert HomeOk(s, h, Some(s.running), t);
    }
    forall t
      ensures ListsOk(s, h', t)
    {
      assert ListsOk(s, h, t);
    }
    forall m, t
      ensures WaitersOk(s, h', m, t)
    {
      assert WaitersOk(s, h, m, t);
    }
    forall x
      ensures CarryOk(s, h', x)
    {
      assert CarryOk(s, h, x);
    }
  }

  lemma FrontOff<T>(xs: seq<T>)
    requires NoDup(xs) && xs != []
    ensures NoDup(xs[1..]) && xs[0] !in xs[1..]
    ensures forall t :: t in xs[1..] <==> t in xs && t != xs[0]
  {
    assert xs == [xs[0]] + xs[1..];
  }

  /** get_next_run and the swap to its result put exactly one thread on the processor. */
  lemma DispatchKeeps(s: State, h: Homes) returns (h': Homes)
    requires Stored(s, h) && s.runq != []
    ensures Dispatch(s).Step? && OneQueue(Dispatch(s).s, h')
  {
    var u := s.runq[0];
    FrontOff(s.runq);
    TakeOff(s, h, u, s.runq[1..]);
    h' := h[u := Off];
    Picked(s.(runq := s.runq[1..]), h', Some(u), s.picks + 1);
    var s1 := s.(runq := s.runq[1..], picks := s.picks + 1);
    if u == s.running {
      RunSelf(s1, h');
    } else {
      RunNext(s1, h', u);
    }
    h' := h'[u := Runs];
  }

  /** A yield to a chosen thread. */
  lemma DispatchToKeeps(s: State, h: Homes, u: Tid) returns (h': Homes)
    requires Stored(s, h) && u in s.runq && |s.runq| >= 2
    ensures u in s.status && DispatchTo(s, u).Step? && OneQueue(DispatchTo(s, u).s, h')
  {
    assert ListsOk(s, h, u);
    var q := Without(s.runq, u);
    NoDupWithout(s.runq, u);
    TakeOff(s, h, u, q);
    h' := h[u := Off];
    if u == s.running {
      RunSelf(s.(runq := q), h');
    } else {
      RunNext(s.(runq := q), h', u);
    }
    h' := h'[u := Runs];
  }

  /** make_thread_runnable on a thread no queue holds: it runs, the caller is queued. */
  lemma WakeKeeps(s: State, h: Homes, u: Tid)
    requires QueuesOk(s, h, Some(u)) && h[s.running] == Runs && u in h && h[u] == Off && u != s.running
    requires s.status[u] == Blocked || s.status[u] == Descheduled
    ensures var o := MakeThreadRunnable(s, u, false);
            o.Step? && OneQueue(o.s, h[s.running := Queued][u := Runs])
  {
    AddSelf(s, h, Some(u));
    RunNext(AddToRun(s, s.running), h[s.running := Queued], u);
  }
}
