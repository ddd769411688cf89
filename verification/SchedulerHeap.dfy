/** The scheduler's data as the kernel has it: control blocks in the heap, threaded through one link into the
    runnable queue, the sleep queue and the waiters of every mutex.  `model` is the state of module Scheduler
    that the heap stands for; every operation on the heap is proved to move it. */
module SchedulerHeap {
  import opened Seqs
  import opened IntrusiveQueue
  import opened Scheduler

  /** tcb_t, as far as the scheduler uses it; `pc` stands for the thread's kernel stack. */
  class Tcb {
    const tid: Tid
    const link: Elem       // scheduler_queue
    var status: Status
    var expiryDate: nat
    var pc: Pc

    constructor (tid: Tid, status: Status)
      ensures this.tid == tid && this.status == status && expiryDate == 0 && pc == Idle
      ensures fresh(link) && link.pid == tid && link.Detached()
    {
      this.tid, this.status, expiryDate, pc := tid, status, 0, Idle;
      link := new Elem(tid);
    }
  }

  /** mutex_t */
  class Mux {
    var owned: bool
    var ownerTid: Tid
    const waiters: Queue

    /** mutex_init */
    constructor ()
      ensures !owned && ownerTid == 0 && fresh(waiters) && waiters.Valid() && waiters.Elems == []
    {
      owned, ownerTid := false, 0;
      waiters := new Queue();
    }
  }

  /** The locals of sleep_on_tick, while handling_sleep_queue is 1. */
  datatype ScanFrame = ScanFrame(who: Tid, now: nat, phase: Phase, curr: Elem?)

  function Joined(x: Mutex, t: Tid): Mutex {
    x.(waiters := x.waiters + [t], enq := x.enq + [t])
  }

  function Left(x: Mutex): Mutex
    requires x.waiters != []
  {
    x.(waiters := x.waiters[1..], granted := x.granted + [x.waiters[0]])
  }

  /** On no queue that uses the link. */
  ghost predicate OffQueues(s: State, t: Tid) {
    t !in s.runq && t !in s.sleepq && forall m :: m in s.mutexes ==> t !in s.mutexes[m].waiters
  }

  ghost function WaiterQueues(muxes: map<Mid, Mux>): set<Queue> {
    set m | m in muxes :: muxes[m].waiters
  }

  lemma AllFree(t: Tid, muxes: map<Mid, Mux>, sleepMux: Mid)
    requires sleepMux in muxes
    ensures Initial(t, muxes.Keys, sleepMux).mutexes == map m | m in muxes :: FreeMutex()
  {
  }

  class Kernel {
    var running: Tcb
    var threads: map<Tid, Tcb>      // find_tcb
    var mutexes: map<Mid, Mux>
    const sleepMux: Mid
    const runnableQ: Queue
    const sleepQ: Queue
    const heap: LinkHeap
    var parked: set<Tid>
    var totalTicks: nat
    var earliestExpiryDate: nat
    var scan: Option<ScanFrame>
    ghost var model: State

    // ------------------------------------------------------------------ the heap and the model

    /** The queue links exactly the threads `ids`, in this order. */
    ghost predicate QueueIs(q: Queue, ids: seq<Tid>)
      reads this`threads, q
    {
      |q.Elems| == |ids| && forall i {:trigger ids[i]} :: 0 <= i < |ids| ==> ids[i] in threads && q.Elems[i] == threads[ids[i]].link
    }

    ghost predicate LinkOk(t: Tid)
      requires t in threads
      reads this`threads, heap
    {
      threads[t].tid == t && threads[t].link.pid == t && threads[t].link in heap.elems
    }

    ghost predicate MuxQueueOk(m: Mid)
      requires m in mutexes
      reads this`mutexes, heap
    {
      mutexes[m].waiters in heap.queues && mutexes[m].waiters != runnableQ && mutexes[m].waiters != sleepQ
    }

    ghost predicate OwnMux(m: Mid, k: Mid)
      requires m in mutexes && k in mutexes
      reads this`mutexes
    {
      m != k ==> mutexes[m] != mutexes[k] && mutexes[m].waiters != mutexes[k].waiters
    }

    /** A queue of the link is one of the three kinds. */
    ghost predicate KnownQueue(q: Queue)
      reads this`mutexes
    {
      q == runnableQ || q == sleepQ || exists m :: m in mutexes && mutexes[m].waiters == q
    }

    /** One link for the runnable queue, the sleep queue and the waiters of each mutex; one link a thread. */
    ghost predicate Structure()
      reads this`threads, this`mutexes, heap, heap.queues, heap.elems
    {
      && heap.Valid() && heap.stale == {} && runnableQ in heap.queues && sleepQ in heap.queues && runnableQ != sleepQ
      && (forall q {:trigger KnownQueue(q)} :: q in heap.queues ==> KnownQueue(q))
      && (forall t {:trigger LinkOk(t)} :: t in threads ==> LinkOk(t))
      && (forall m {:trigger MuxQueueOk(m)} :: m in mutexes ==> MuxQueueOk(m))
      && (forall m, k {:trigger OwnMux(m, k)} :: m in mutexes && k in mutexes ==> OwnMux(m, k))
    }

    ghost predicate TcbOk(status: map<Tid, Status>, pc: map<Tid, Pc>, expiry: map<Tid, nat>, t: Tid)
      requires t in threads
      reads this`threads, threads[t]
    {
      && t in status && threads[t].status == status[t]
      && t in pc && threads[t].pc == pc[t]
      && t in expiry && threads[t].expiryDate == expiry[t]
    }

    ghost predicate TcbsOk(status: map<Tid, Status>, pc: map<Tid, Pc>, expiry: map<Tid, nat>)
      reads this`threads, threads.Values
    {
      && threads.Keys == status.Keys == pc.Keys == expiry.Keys
      && forall t {:trigger TcbOk(status, pc, expiry, t)} :: t in threads ==> TcbOk(status, pc, expiry, t)
    }

    ghost predicate WaitersAre(mx: map<Mid, Mutex>, m: Mid)
      requires m in mutexes
      reads this`threads, this`mutexes, mutexes[m].waiters
    {
      m in mx && QueueIs(mutexes[m].waiters, mx[m].waiters)
    }

    ghost predicate QueuesAre(runq: seq<Tid>, sleepq: seq<Tid>, mx: map<Mid, Mutex>)
      reads this`threads, this`mutexes, runnableQ, sleepQ, WaiterQueues(mutexes)
    {
      && QueueIs(runnableQ, runq) && QueueIs(sleepQ, sleepq)
      && forall m {:trigger WaitersAre(mx, m)} :: m in mutexes ==> WaitersAre(mx, m)
    }

    ghost predicate OwnerIs(mx: map<Mid, Mutex>, m: Mid)
      requires m in mutexes
      reads this`mutexes, mutexes[m]
    {
      m in mx && mutexes[m].owned == mx[m].owned && mutexes[m].ownerTid == mx[m].owner
    }

    ghost predicate OwnersAre(mx: map<Mid, Mutex>)
      reads this`mutexes, mutexes.Values
    {
      mutexes.Keys == mx.Keys && forall m {:trigger OwnerIs(mx, m)} :: m in mutexes ==> OwnerIs(mx, m)
    }

    /** curr points to the first of the threads not yet passed. */
    ghost predicate CurrIs(curr: Elem?, rest: seq<Tid>)
      reads this`threads
    {
      if rest == [] then curr == null else rest[0] in threads && curr == threads[rest[0]].link
    }

    ghost predicate ScanIs(c: Option<Scan>)
      reads this`scan, this`threads
    {
      match scan
      case None => c == None
      case Some(f) =>
        && c.Some? && f.who == c.value.who && f.now == c.value.now && f.phase == c.value.phase
        && (f.phase.ScanLoop? || f.phase.ScanWake? ==> CurrIs(f.curr, c.value.rest))
    }

    ghost predicate RunningIs(t: Tid)
      reads this`running, this`threads
    {
      running.tid == t && Known(running)
    }

    /** A control block of this kernel. */
    ghost predicate Known(tcb: Tcb)
      reads this`threads
    {
      tcb.tid in threads && threads[tcb.tid] == tcb
    }

    ghost predicate VarsAre(s: State)
      reads this`running, this`threads, this`scan, this`parked, this`totalTicks, this`earliestExpiryDate
    {
      && RunningIs(s.running) && ScanIs(s.scan) && sleepMux == s.sleepMux
      && parked == s.parked && totalTicks == s.ticks && earliestExpiryDate == s.earliest
    }

    /** The heap stands for s. */
    ghost predicate Agrees(s: State)
      reads this, heap, heap.queues, heap.elems, threads.Values, mutexes.Values, WaiterQueues(mutexes)
    {
      && Structure() && VarsAre(s)
      && TcbsOk(s.status, s.pc, s.expiry)
      && OwnersAre(s.mutexes)
      && QueuesAre(s.runq, s.sleepq, s.mutexes)
    }

    /** The heap stands for the model; in this form a proof sees how only when it mentions Agrees. */
    ghost predicate Ready()
      reads this, heap, heap.queues, heap.elems, threads.Values, mutexes.Values, WaiterQueues(mutexes)
    {
      forall s {:trigger Agrees(s)} :: s == model ==> Agrees(s)
    }

    ghost function Frame(): set<object>
      reads this`threads, this`mutexes, heap
    {
      {this} + heap.queues + heap.elems + threads.Values + mutexes.Values
    }

    /** Still the same control blocks, mutexes and queues, and in accord with the model. */
    twostate predicate Stays()
      reads this, heap, heap.queues, heap.elems, threads.Values, mutexes.Values, WaiterQueues(mutexes)
    {
      Ready() && Frame() == old(Frame()) && threads == old(threads) && mutexes == old(mutexes)
    }

    /** Q_INIT_HEAD */
    static ghost predicate EmptyHead(q: Queue)
      reads q
    {
      q.front == null && q.tail == null && q.Elems == []
    }

    /** Mutexes as mutex_init leaves them, each with a queue of its own. */
    static ghost predicate AllInitial(muxes: map<Mid, Mux>)
      reads muxes.Values, WaiterQueues(muxes)
    {
      && (forall m :: m in muxes ==> !muxes[m].owned && muxes[m].ownerTid == 0 && EmptyHead(muxes[m].waiters)) && (forall m, k :: m in muxes && k in muxes && m != k ==> muxes[m] != muxes[k] && muxes[m].waiters != muxes[k].waiters)
    }

    /** One thread runs; every mutex is free. */
    constructor (first: Tid, muxes: map<Mid, Mux>, sleepMux: Mid)
      requires sleepMux in muxes && AllInitial(muxes)
      ensures Ready() && model == Initial(first, muxes.Keys, sleepMux)
    {
      var tcb := new Tcb(first, Running);
      running, threads, mutexes, this.sleepMux := tcb, map[first := tcb], muxes, sleepMux;
      var runq := new Queue();
      var sleepers := new Queue();
      runnableQ, sleepQ := runq, sleepers;
      var links := new LinkHeap({runq, sleepers} + WaiterQueues(muxes), {tcb.link});
      heap := links;
      parked, totalTicks, earliestExpiryDate, scan := {}, 0, UINT_MAX, None;
      model := Initial(first, muxes.Keys, sleepMux);
      new;
      StartReady(first);
    }

    lemma StartReady(first: Tid)
      requires heap.Valid() && heap.stale == {} && heap.queues == {runnableQ, sleepQ} + WaiterQueues(mutexes)
               && runnableQ != sleepQ
      requires runnableQ !in WaiterQueues(mutexes) && sleepQ !in WaiterQueues(mutexes)
      requires AllInitial(mutexes) && runnableQ.Elems == [] && sleepQ.Elems == [] && sleepMux in mutexes
      requires threads == map[first := running] && running.tid == first && running.link.pid == first
               && running.link in heap.elems
      requires running.status == Running && running.pc == Idle && running.expiryDate == 0
      requires parked == {} && totalTicks == 0 && earliestExpiryDate == UINT_MAX && scan == None
      requires model == Initial(first, mutexes.Keys, sleepMux)
      ensures Ready()
    {
      AllFree(first, mutexes, sleepMux);
      forall q | q in heap.queues
        ensures KnownQueue(q)
      {
        if q != runnableQ && q != sleepQ {
          assert q in WaiterQueues(mutexes);
        }
      }
      forall m, k | m in mutexes && k in mutexes
        ensures MuxQueueOk(m) && OwnMux(m, k) && OwnerIs(model.mutexes, m) && WaitersAre(model.mutexes, m)
      {
        assert mutexes[m].waiters in WaiterQueues(mutexes);
      }
    }

    /** The variables of the kernel have the values of the model. */
    lemma Basics()
      requires Ready()
      ensures Known(running) && running.tid == model.running && sleepMux == model.sleepMux
              && mutexes.Keys == model.mutexes.Keys
      ensures threads.Keys == model.status.Keys == model.pc.Keys == model.expiry.Keys
      ensures parked == model.parked && totalTicks == model.ticks && earliestExpiryDate == model.earliest
              && ScanIs(model.scan)
    {
      assert Agrees(model);
    }

    /** ... and so have the fields of a control block. */
    lemma TcbIs(tcb: Tcb)
      requires Ready() && Known(tcb)
      ensures tcb.tid in model.status && tcb.tid in model.pc && tcb.tid in model.expiry
      ensures tcb.status == model.status[tcb.tid] && tcb.pc == model.pc[tcb.tid]
              && tcb.expiryDate == model.expiry[tcb.tid]
    {
      assert Agrees(model) && TcbOk(model.status, model.pc, model.expiry, tcb.tid);
    }

    lemma Thread(u: Tid)
      requires Ready() && u in threads
      ensures Known(threads[u]) && threads[u].tid == u
    {
      assert Agrees(model) && LinkOk(u);
    }

    lemma MuxIs(m: Mid)
      requires Ready() && m in mutexes
      ensures m in model.mutexes && mutexes[m].owned == model.mutexes[m].owned
              && mutexes[m].ownerTid == model.mutexes[m].owner
      ensures mutexes[m].waiters in heap.queues && QueueIs(mutexes[m].waiters, model.mutexes[m].waiters)
    {
      assert Agrees(model) && OwnerIs(model.mutexes, m) && MuxQueueOk(m) && WaitersAre(model.mutexes, m);
    }

    // ------------------------------------------------------------------ which queue a thread is on

    lemma InQueue(q: Queue, ids: seq<Tid>, t: Tid)
      requires QueueIs(q, ids) && t in threads && forall u {:trigger LinkOk(u)} :: u in threads ==> LinkOk(u)
      ensures threads[t].link in q.Elems <==> t in ids
    {
      assert LinkOk(t);
      if t in ids {
        var i :| 0 <= i < |ids| && ids[i] == t;
        assert q.Elems[i] in q.Elems;
      }
      if threads[t].link in q.Elems {
        var i :| 0 <= i < |q.Elems| && q.Elems[i] == threads[t].link;
        assert ids[i] in threads && LinkOk(ids[i]);
      }
    }

    /** A thread on no queue has a free link, and the other way round. */
    lemma OffIsFree(t: Tid)
      requires Ready() && t in threads
      ensures OffQueues(model, t) <==> heap.Free(threads[t].link)
      ensures threads[t].link in heap.elems
    {
      assert Agrees(model);
      assert LinkOk(t);
      InQueue(runnableQ, model.runq, t);
      InQueue(sleepQ, model.sleepq, t);
      forall m | m in mutexes
        ensures threads[t].link in mutexes[m].waiters.Elems <==> t in model.mutexes[m].waiters
        ensures MuxQueueOk(m)
      {
        assert WaitersAre(model.mutexes, m);
        InQueue(mutexes[m].waiters, model.mutexes[m].waiters, t);
      }
      forall q | q in heap.queues
        ensures KnownQueue(q)
      {
      }
    }

    /** Q_IN_SOME_QUEUE on the link decides what the model says of the queues. */
    lemma SeesQueue(t: Tid)
      requires Ready() && t in threads
      ensures threads[t].link.InSomeQueue() <==> InSomeQueue(model, t)
    {
      assert Agrees(model);
      assert LinkOk(t);
      heap.InSomeQueueIff(threads[t].link);
      InQueue(runnableQ, model.runq, t);
      InQueue(sleepQ, model.sleepq, t);
      forall m | m in mutexes
        ensures threads[t].link in mutexes[m].waiters.Elems <==> t in model.mutexes[m].waiters
        ensures MuxQueueOk(m) && WaitersAre(model.mutexes, m)
      {
        assert WaitersAre(model.mutexes, m);
        InQueue(mutexes[m].waiters, model.mutexes[m].waiters, t);
      }
      forall q | q in heap.queues
        ensures KnownQueue(q)
      {
      }
    }

    // ------------------------------------------------------------------ fields of control blocks

    /** Nothing the queues are made of was written. */
    twostate lemma QueuesStay()
      requires old(Structure()) && old(QueuesAre(model.runq, model.sleepq, model.mutexes))
      requires unchanged(`threads) && unchanged(`mutexes) && unchanged(heap)
      requires forall q :: q in old(heap.queues) ==> unchanged(q)
      requires forall e :: e in old(heap.elems) ==> unchanged(e)
      ensures Structure() && QueuesAre(old(model).runq, old(model).sleepq, old(model).mutexes)
    {
      forall m | m in mutexes
        ensures mutexes[m].waiters in old(heap.queues)
      {
        assert old(MuxQueueOk(m));
      }
    }

    twostate lemma OwnersStay()
      requires old(OwnersAre(model.mutexes)) && unchanged(`mutexes)
      requires forall m {:trigger mutexes[m]} :: m in mutexes ==> unchanged(mutexes[m])
      ensures OwnersAre(old(model).mutexes)
    {
    }

    lemma Assemble()
      requires Structure() && VarsAre(model) && TcbsOk(model.status, model.pc, model.expiry)
      requires OwnersAre(model.mutexes) && QueuesAre(model.runq, model.sleepq, model.mutexes)
      ensures Ready()
    {
    }

    /** One control block was written, and the model follows. */
    twostate lemma OneSet(tcb: Tcb)
      requires old(Structure()) && old(TcbsOk(model.status, model.pc, model.expiry)) && unchanged(`threads)
               && old(Known(tcb))
      requires forall b :: b in old(threads.Values) && b != tcb ==> unchanged(b)
      requires model == old(model).(status := model.status, pc := model.pc, expiry := model.expiry)
      requires model.status == old(model).status[tcb.tid := tcb.status] || (model.status == old(model).status
               && tcb.status == old(tcb.status))
      requires model.pc == old(model).pc[tcb.tid := tcb.pc] || (model.pc == old(model).pc && tcb.pc == old(tcb.pc))
      requires model.expiry == old(model).expiry[tcb.tid := tcb.expiryDate]
               || (model.expiry == old(model).expiry && tcb.expiryDate == old(tcb.expiryDate))
      ensures TcbsOk(model.status, model.pc, model.expiry)
    {
      forall u | u in threads
        ensures TcbOk(model.status, model.pc, model.expiry, u)
      {
        assert old(LinkOk(u)) && old(TcbOk(model.status, model.pc, model.expiry, u));
        assert u != tcb.tid ==> threads[u] in old(threads.Values);
      }
    }

    method SetStatus(tcb: Tcb, st: Status)
      requires Ready() && Known(tcb)
      modifies Frame()
      ensures Stays() && model == WithStatus(old(model), tcb.tid, st)
    {
      assert Agrees(model);
      tcb.status := st;
      model := WithStatus(model, tcb.tid, st);
      QueuesStay();
      OwnersStay();
      OneSet(tcb);
      Assemble();
    }

    method SetPc(tcb: Tcb, pc: Pc)
      requires Ready() && Known(tcb)
      modifies Frame()
      ensures Stays() && model == WithPc(old(model), tcb.tid, pc)
    {
      assert Agrees(model);
      tcb.pc := pc;
      model := WithPc(model, tcb.tid, pc);
      QueuesStay();
      OwnersStay();
      OneSet(tcb);
      Assemble();
    }

    method SetExpiry(tcb: Tcb, date: nat)
      requires Ready() && Known(tcb)
      modifies Frame()
      ensures Stays() && model == old(model).(expiry := old(model).expiry[tcb.tid := date])
    {
      assert Agrees(model);
      tcb.expiryDate := date;
      model := model.(expiry := model.expiry[tcb.tid := date]);
      QueuesStay();
      OwnersStay();
      OneSet(tcb);
      Assemble();
    }

    // ------------------------------------------------------------------ mutexes and variables

    twostate lemma TcbsStay()
      requires old(TcbsOk(model.status, model.pc, model.expiry)) && unchanged(`threads)
      requires forall b :: b in old(threads.Values) ==> unchanged(b)
      ensures TcbsOk(old(model).status, old(model).pc, old(model).expiry)
    {
      forall u | u in threads
        ensures TcbOk(old(model).status, old(model).pc, old(model).expiry, u)
      {
        assert old(TcbOk(model.status, model.pc, model.expiry, u)) && threads[u] in old(threads.Values);
      }
    }

    /** The owner of a mutex; `x` is what it is in the model. */
    method SetOwner(m: Mid, mux: Mux, owned: bool, owner: Tid, ghost x: Mutex)
      requires Ready() && m in mutexes && mutexes[m] == mux && m in model.mutexes
      requires x.owned == owned && x.owner == owner && x.waiters == model.mutexes[m].waiters
      modifies Frame()
      ensures Stays() && model == WithMutex(old(model), m, x)
    {
      assert Agrees(model);
      mux.owned, mux.ownerTid := owned, owner;
      model := WithMutex(model, m, x);
      QueuesStay();
      TcbsStay();
      OwnerSet(m);
      SameWaiters(old(model).mutexes, m, x);
      Assemble();
    }

    twostate lemma OwnerSet(m: Mid)
      requires old(Structure()) && old(OwnersAre(model.mutexes)) && unchanged(`mutexes) && m in mutexes
      requires forall b :: b in old(mutexes.Values) && b != mutexes[m] ==> unchanged(b)
      requires m in model.mutexes && model.mutexes == old(model).mutexes[m := model.mutexes[m]]
               && OwnerIs(model.mutexes, m)
      ensures OwnersAre(model.mutexes)
    {
      forall k | k in mutexes
        ensures OwnerIs(model.mutexes, k)
      {
        assert old(OwnMux(m, k)) && old(OwnerIs(model.mutexes, k)) && mutexes[k] in old(mutexes.Values);
      }
    }

    lemma SameWaiters(mx: map<Mid, Mutex>, m: Mid, x: Mutex)
      requires QueuesAre(model.runq, model.sleepq, mx) && m in mx && mx[m].waiters == x.waiters
      ensures QueuesAre(model.runq, model.sleepq, mx[m := x])
    {
      forall k | k in mutexes
        ensures WaitersAre(mx[m := x], k)
      {
        assert WaitersAre(mx, k);
      }
    }

    /** running_thread = to_run */
    method SetRunning(tcb: Tcb)
      requires Ready() && Known(tcb)
      modifies Frame()
      ensures Stays() && model == old(model).(running := tcb.tid)
    {
      assert Agrees(model);
      running := tcb;
      model := model.(running := tcb.tid);
      QueuesStay();
      TcbsStay();
      OwnersStay();
      Assemble();
    }

    method SetParked(p: set<Tid>)
      requires Ready()
      modifies Frame()
      ensures Stays() && model == old(model).(parked := p)
    {
      assert Agrees(model);
      parked := p;
      model := model.(parked := p);
      QueuesStay();
      TcbsStay();
      OwnersStay();
      Assemble();
    }

    method SetEarliest(date: nat)
      requires Ready()
      modifies Frame()
      ensures Stays() && model == old(model).(earliest := date)
    {
      assert Agrees(model);
      earliestExpiryDate := date;
      model := model.(earliest := date);
      QueuesStay();
      TcbsStay();
      OwnersStay();
      Assemble();
    }

    method CountTick()
      requires Ready()
      modifies Frame()
      ensures Stays() && model == old(model).(ticks := old(model).ticks + 1)
    {
      assert Agrees(model);
      totalTicks := totalTicks + 1;
      model := model.(ticks := model.ticks + 1);
      QueuesStay();
      TcbsStay();
      OwnersStay();
      Assemble();
    }

    ghost method CountPick()
      requires Ready()
      modifies Frame()
      ensures Stays() && model == old(model).(picks := old(model).picks + 1)
    {
      assert Agrees(model);
      model := model.(picks := model.picks + 1);
      QueuesStay();
      TcbsStay();
      OwnersStay();
      Assemble();
    }

    method SetScan(f: Option<ScanFrame>, ghost c: Option<Scan>)
      requires Ready()
      requires f.Some? <==> c.Some?
      requires f.Some? ==> f.value.who == c.value.who && f.value.now == c.value.now && f.value.phase == c.value.phase
      requires f.Some? && (f.value.phase.ScanLoop? || f.value.phase.ScanWake?) ==> CurrIs(f.value.curr, c.value.rest)
      modifies Frame()
      ensures Stays() && model == old(model).(scan := c)
    {
      assert Agrees(model);
      scan := f;
      model := model.(scan := c);
      QueuesStay();
      TcbsStay();
      OwnersStay();
      Assemble();
    }

    // ------------------------------------------------------------------ queues

    /** Of the queues only q was written. */
    twostate lemma OtherQueues(q: Queue)
      requires old(Structure()) && old(QueuesAre(model.runq, model.sleepq, model.mutexes))
      requires unchanged(`threads) && unchanged(`mutexes) && unchanged(heap) && heap.Valid()
      requires forall r :: r in heap.queues && r != q ==> r.Elems == old(r.Elems)
      ensures Structure()
      ensures q != runnableQ ==> QueueIs(runnableQ, old(model).runq)
      ensures q != sleepQ ==> QueueIs(sleepQ, old(model).sleepq)
      ensures forall m :: m in mutexes && mutexes[m].waiters != q ==> WaitersAre(old(model).mutexes, m)
    {
      forall m | m in mutexes && mutexes[m].waiters != q
        ensures WaitersAre(old(model).mutexes, m)
      {
        assert old(MuxQueueOk(m)) && old(WaitersAre(model.mutexes, m));
      }
      forall m, k | m in mutexes && k in mutexes
        ensures OwnMux(m, k) && MuxQueueOk(m)
      {
        assert old(OwnMux(m, k)) && old(MuxQueueOk(m));
      }
      forall t | t in threads
        ensures LinkOk(t)
      {
        assert old(LinkOk(t));
      }
      forall r | r in heap.queues
        ensures KnownQueue(r)
      {
        assert old(KnownQueue(r));
      }
    }

    /** All queues but q hold what the model says. */
    ghost predicate OthersAre(q: Queue, s: State)
      reads this`threads, this`mutexes, runnableQ, sleepQ, WaiterQueues(mutexes)
    {
      && (q != runnableQ ==> QueueIs(runnableQ, s.runq))
      && (q != sleepQ ==> QueueIs(sleepQ, s.sleepq)) && (forall m {:trigger WaitersAre(s.mutexes, m)} :: m in mutexes && mutexes[m].waiters != q ==> WaitersAre(s.mutexes, m))
    }

    /** Q_INSERT_TAIL on the scheduler's link. */
    method Link(q: Queue, tcb: Tcb, ghost ids: seq<Tid>)
      requires Ready() && Known(tcb) && OffQueues(model, tcb.tid) && q in heap.queues && QueueIs(q, ids)
      modifies q, heap.elems
      ensures QueueIs(q, ids + [tcb.tid]) && ReadyBut(q)
    {
      assert Agrees(model);
      OffIsFree(tcb.tid);
      heap.InsertTail(q, tcb.link);
      OtherQueues(q);
      TcbsStay();
      OwnersStay();
    }

    /** Q_REMOVE on the scheduler's link, given the control block only. */
    method Unlink(q: Queue, tcb: Tcb, ghost ids: seq<Tid>)
      requires Ready() && Known(tcb) && q in heap.queues && QueueIs(q, ids) && tcb.tid in ids
      modifies q, heap.elems
      ensures QueueIs(q, Without(ids, tcb.tid)) && heap.Free(tcb.link) && ReadyBut(q)
    {
      assert Agrees(model);
      ghost var k := Position(q, ids, tcb.tid);
      RemoveAt(q, tcb, k);
    }

    method RemoveAt(q: Queue, tcb: Tcb, ghost k: nat)
      requires Ready() && q in heap.queues && k < |q.Elems| && q.Elems[k] == tcb.link
      modifies q, heap.elems
      ensures q.Elems == WithoutAt(old(q.Elems), k) && heap.Free(tcb.link) && ReadyBut(q)
    {
      assert Agrees(model);
      heap.Remove(q, tcb.link, k);
      OtherQueues(q);
      TcbsStay();
      OwnersStay();
    }

    lemma Position(q: Queue, ids: seq<Tid>, t: Tid) returns (k: nat)
      requires Structure() && q in heap.queues && QueueIs(q, ids) && t in ids && t in threads
      ensures k < |ids| && ids[k] == t && q.Elems[k] == threads[t].link
      ensures Without(ids, t) == ids[..k] + ids[k + 1..]
    {
      k :| 0 <= k < |ids| && ids[k] == t;
      assert heap.QueueOk(q);
      forall i | 0 <= i < k
        ensures ids[i] != t
      {
        assert q.Elems[i] != q.Elems[k];
      }
      WithoutIs(ids, k);
    }

    /** Everything but the queue q is as the model says. */
    ghost predicate ReadyBut(q: Queue)
      reads this, heap, heap.queues, heap.elems, threads.Values, mutexes.Values, runnableQ, sleepQ, WaiterQueues(mutexes)
    {
      && Structure() && OthersAre(q, model)
      && VarsAre(model) && TcbsOk(model.status, model.pc, model.expiry) && OwnersAre(model.mutexes)
    }

    ghost method ModelRunq(ids: seq<Tid>)
      requires ReadyBut(runnableQ) && QueueIs(runnableQ, ids)
      modifies this`model
      ensures Ready() && model == old(model).(runq := ids)
    {
      forall m | m in mutexes
        ensures WaitersAre(model.mutexes, m)
      {
        assert MuxQueueOk(m);
      }
      model := model.(runq := ids);
      Assemble();
    }

    ghost method ModelSleepq(ids: seq<Tid>)
      requires ReadyBut(sleepQ) && QueueIs(sleepQ, ids)
      modifies this`model
      ensures Ready() && model == old(model).(sleepq := ids)
    {
      forall m | m in mutexes
        ensures WaitersAre(model.mutexes, m)
      {
        assert MuxQueueOk(m);
      }
      model := model.(sleepq := ids);
      Assemble();
    }

    ghost method ModelWaiters(m: Mid, x: Mutex)
      requires m in mutexes && m in model.mutexes && ReadyBut(mutexes[m].waiters)
               && QueueIs(mutexes[m].waiters, x.waiters)
      requires x.owned == model.mutexes[m].owned && x.owner == model.mutexes[m].owner
      modifies this`model
      ensures Ready() && model == WithMutex(old(model), m, x)
    {
      assert MuxQueueOk(m);
      ghost var mx := model.mutexes[m := x];
      forall k | k in mutexes
        ensures WaitersAre(mx, k) && OwnerIs(mx, k)
      {
        assert OwnMux(m, k) && OwnerIs(model.mutexes, k);
        assert k != m ==> WaitersAre(model.mutexes, k);
      }
      model := WithMutex(model, m, x);
      Assemble();
    }

    /** add_to_run, past the status. */
    method PushRun(tcb: Tcb)
      requires Ready() && Known(tcb) && OffQueues(model, tcb.tid)
      modifies Frame()
      ensures Stays() && model == old(model).(runq := old(model).runq + [tcb.tid])
    {
      assert Agrees(model);
      Link(runnableQ, tcb, model.runq);
      ModelRunq(model.runq + [tcb.tid]);
    }

    /** Q_GET_FRONT; every member of a queue is a control block. */
    method Front(q: Queue, ghost ids: seq<Tid>) returns (tcb: Tcb?)
      requires Ready() && q in heap.queues && QueueIs(q, ids)
      ensures Ready()
      ensures if ids == [] then tcb == null else tcb != null && Known(tcb) && tcb.tid == ids[0]
    {
      assert Agrees(model) && heap.QueueOk(q);
      if q.front == null {
        return null;
      }
      assert q.front == q.Elems[0] && ids[0] in threads && LinkOk(ids[0]);
      tcb := threads[q.front.pid];
    }

    method FrontRunnable() returns (tcb: Tcb?)
      requires Ready()
      ensures Ready()
      ensures if model.runq == [] then tcb == null else tcb != null && Known(tcb) && tcb.tid == model.runq[0]
    {
      assert Agrees(model);
      tcb := Front(runnableQ, model.runq);
    }

    method FrontWaiter(m: Mid, mux: Mux) returns (tcb: Tcb?)
      requires Ready() && m in mutexes && mutexes[m] == mux
      ensures Ready() && m in model.mutexes
      ensures var ids := model.mutexes[m].waiters;
              if ids == [] then tcb == null else tcb != null && Known(tcb) && tcb.tid == ids[0]
    {
      MuxIs(m);
      tcb := Front(mux.waiters, model.mutexes[m].waiters);
    }

    method RemoveRun(tcb: Tcb)
      requires Ready() && Known(tcb) && tcb.tid in model.runq
      modifies Frame()
      ensures Stays() && model == old(model).(runq := Without(old(model).runq, tcb.tid))
    {
      assert Agrees(model);
      Unlink(runnableQ, tcb, model.runq);
      ModelRunq(Without(model.runq, tcb.tid));
    }

    method PushSleep(tcb: Tcb)
      requires Ready() && Known(tcb) && OffQueues(model, tcb.tid)
      modifies Frame()
      ensures Stays() && model == old(model).(sleepq := old(model).sleepq + [tcb.tid])
    {
      assert Agrees(model);
      Link(sleepQ, tcb, model.sleepq);
      ModelSleepq(model.sleepq + [tcb.tid]);
    }

    method RemoveSleep(tcb: Tcb)
      requires Ready() && Known(tcb) && tcb.tid in model.sleepq
      modifies Frame()
      ensures Stays() && model == old(model).(sleepq := Without(old(model).sleepq, tcb.tid))
    {
      assert Agrees(model);
      Unlink(sleepQ, tcb, model.sleepq);
      ModelSleepq(Without(model.sleepq, tcb.tid));
    }

    /** Q_INSERT_TAIL on the waiters of a mutex. */
    method PushWaiter(m: Mid, mux: Mux, tcb: Tcb)
      requires Ready() && m in mutexes && mutexes[m] == mux && m in model.mutexes && Known(tcb)
               && OffQueues(model, tcb.tid)
      modifies Frame()
      ensures Stays() && m in old(model).mutexes
      ensures model == WithMutex(old(model), m, Joined(old(model).mutexes[m], tcb.tid))
    {
      assert Agrees(model);
      assert MuxQueueOk(m) && WaitersAre(model.mutexes, m);
      Link(mux.waiters, tcb, model.mutexes[m].waiters);
      ModelWaiters(m, Joined(model.mutexes[m], tcb.tid));
    }

    method UnlinkWaiter(m: Mid, mux: Mux, tcb: Tcb)
      requires Ready() && m in mutexes && mutexes[m] == mux && m in model.mutexes && model.mutexes[m].waiters != []
      requires Known(tcb) && tcb.tid == model.mutexes[m].waiters[0]
      modifies Frame()
      ensures Stays() && heap.Free(tcb.link) && m in old(model).mutexes && old(model).mutexes[m].waiters != []
      ensures model == WithMutex(old(model), m, Left(old(model).mutexes[m]))
    {
      assert Agrees(model);
      assert MuxQueueOk(m) && WaitersAre(model.mutexes, m);
      Unlink(mux.waiters, tcb, model.mutexes[m].waiters);
      ModelWaiters(m, Left(model.mutexes[m]));
    }

    /** Q_REMOVE of the first of the waiters of a mutex. */
    method PopWaiter(m: Mid, mux: Mux, tcb: Tcb)
      requires Ready() && m in mutexes && mutexes[m] == mux && m in model.mutexes && model.mutexes[m].waiters != []
      requires Known(tcb) && tcb.tid == model.mutexes[m].waiters[0]
      modifies Frame()
      ensures Stays() && OffQueues(model, tcb.tid) && m in old(model).mutexes && old(model).mutexes[m].waiters != []
      ensures model == WithMutex(old(model), m, Left(old(model).mutexes[m]))
    {
      assert Agrees(model);
      UnlinkWaiter(m, mux, tcb);
      OffIsFree(tcb.tid);
    }

    // ------------------------------------------------------------------ new threads

    /** create_tcb, as far as the scheduler sees it. */
    method CreateTcb(u: Tid)
      requires Ready() && u !in threads
      modifies this`model, this`threads, heap
      ensures Ready() && heap.queues == old(heap.queues)
      ensures model == old(model).(status := old(model).status[u := Uninitialized], pc := old(model).pc[u := Idle],
                                   expiry := old(model).expiry[u := 0])
    {
      assert Agrees(model);
      var tcb := new Tcb(u, Uninitialized);
      Unwritten();
      Register(tcb);
    }

    /** Nothing of the kernel was written. */
    twostate lemma Unwritten()
      requires old(Ready()) && unchanged(this) && unchanged(heap)
      requires forall q :: q in old(heap.queues) ==> unchanged(q)
      requires forall e :: e in old(heap.elems) ==> unchanged(e)
      requires forall b :: b in old(threads.Values) ==> unchanged(b)
      requires forall m {:trigger mutexes[m]} :: m in mutexes ==> unchanged(mutexes[m])
      ensures Ready()
    {
      assert old(Agrees(model));
      QueuesStay();
      OwnersStay();
      TcbsStay();
      Assemble();
    }

    method Register(tcb: Tcb)
      requires Ready() && tcb.tid !in threads && tcb.link !in heap.elems && tcb.link.Detached()
               && tcb.link.pid == tcb.tid
      requires tcb.status == Uninitialized && tcb.pc == Idle && tcb.expiryDate == 0
      modifies this`model, this`threads, heap
      ensures Ready() && heap.queues == old(heap.queues)
      ensures var u := tcb.tid;
              model == old(model).(status := old(model).status[u := Uninitialized], pc := old(model).pc[u := Idle],
                                   expiry := old(model).expiry[u := 0])
    {
      assert Agrees(model);
      var u := tcb.tid;
      heap.AddElem(tcb.link);
      threads := threads[u := tcb];
      model := model.(status := model.status[u := Uninitialized], pc := model.pc[u := Idle], expiry := model.expiry[u := 0]);
      Added(u);
      AddedTcb(u);
      AddedWaits(u);
      OwnersStay();
      Assemble();
    }

    /** One control block is new. */
    twostate lemma Added(u: Tid)
      requires old(Structure()) && u !in old(threads) && u in threads && threads == old(threads)[u := threads[u]]
      requires heap.Valid() && heap.stale == {} && heap.queues == old(heap.queues)
               && heap.elems == old(heap.elems) + {threads[u].link}
      requires unchanged(`mutexes) && threads[u].tid == u && threads[u].link.pid == u
      ensures Structure()
    {
      forall t | t in threads
        ensures LinkOk(t)
      {
        assert t != u ==> old(LinkOk(t));
      }
      forall m, k | m in mutexes && k in mutexes
        ensures MuxQueueOk(m) && OwnMux(m, k)
      {
        assert old(MuxQueueOk(m)) && old(OwnMux(m, k));
      }
      forall q | q in heap.queues
        ensures KnownQueue(q)
      {
        assert old(KnownQueue(q));
      }
    }

    twostate lemma AddedTcb(u: Tid)
      requires old(TcbsOk(model.status, model.pc, model.expiry))
      requires u !in old(threads) && u in threads && threads == old(threads)[u := threads[u]]
      requires forall b :: b in old(threads.Values) ==> unchanged(b)
      requires threads[u].status == Uninitialized && threads[u].pc == Idle && threads[u].expiryDate == 0
      ensures TcbsOk(old(model).status[u := Uninitialized], old(model).pc[u := Idle], old(model).expiry[u := 0])
    {
      var st, pc, ex := old(model).status[u := Uninitialized], old(model).pc[u := Idle], old(model).expiry[u := 0];
      forall t | t in threads
        ensures TcbOk(st, pc, ex, t)
      {
        assert t != u ==> old(TcbOk(model.status, model.pc, model.expiry, t)) && threads[t] in old(threads.Values);
      }
    }

    twostate lemma AddedWaits(u: Tid)
      requires old(Structure()) && old(QueuesAre(model.runq, model.sleepq, model.mutexes)) && unchanged(`mutexes)
      requires u !in old(threads) && u in threads && threads == old(threads)[u := threads[u]]
      requires forall q :: q in old(heap.queues) ==> unchanged(q)
      ensures QueuesAre(old(model).runq, old(model).sleepq, old(model).mutexes)
    {
      forall m | m in mutexes
        ensures WaitersAre(old(model).mutexes, m)
      {
        assert old(MuxQueueOk(m)) && old(WaitersAre(model.mutexes, m));
      }
    }

    // ------------------------------------------------------------------ the sleep queue's scan

    lemma FrontIs()
      requires Ready()
      ensures CurrIs(sleepQ.front, model.sleepq)
    {
      assert Agrees(model);
      assert heap.QueueOk(sleepQ);
      assert model.sleepq != [] ==> sleepQ.Elems[0] == threads[model.sleepq[0]].link;
    }

    /** While the scan goes through the queue, curr is a member and its next pointer leads to the thread after it. */
    lemma NextIs(kept: seq<Tid>, rest: seq<Tid>, curr: Elem)
      requires Ready() && model.sleepq == kept + rest && rest != [] && CurrIs(curr, rest)
      ensures curr.pid == rest[0] && curr.pid in threads && threads[curr.pid].link == curr
              && threads[curr.pid].tid == curr.pid
      ensures curr.pid in model.sleepq && CurrIs(curr.next, rest[1..])
    {
      assert Agrees(model);
      var i := |kept|;
      assert model.sleepq[i] == rest[0] && LinkOk(rest[0]) && heap.QueueOk(sleepQ);
      assert sleepQ.Elems[i] == curr;
      if |rest| > 1 {
        assert model.sleepq[i + 1] == rest[1];
        assert sleepQ.Elems[i].next == sleepQ.Elems[i + 1];
      } else {
        assert i == |sleepQ.Elems| - 1;
      }
    }
  }
}
