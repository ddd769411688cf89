/** sem_wait, sem_signal, cond_wait and cond_signal over a sem_t and the nodes that cond_wait keeps on the stacks of
    its callers.  The nodes are linked into the condition variable's queue; a node ends with its call of cond_wait, and
    the code is proved to have it off the queue by then, and not to touch it afterwards. */
module SemaphoreCode {
  import opened Seqs
  import opened IntrusiveQueue
  import opened NamedQueues
  import opened Semaphore

  datatype Result = Ran | NotNow | AffirmFailed

  ghost predicate Follows(o: Outcome, r: Result, before: State, after: State) {
    match o
    case Step(s) => r == Ran && after == s
    case Disabled => r == NotNow && after == before
    case NegativeCount => r == AffirmFailed
  }

  /** cvar_node_t */
  class Node {
    const tid: Tid
    const link: Elem
    var descheduled: bool
    var shouldWakeup: bool

    /** The first lines of cond_wait */
    constructor (tid: Tid)
      ensures this.tid == tid && descheduled && !shouldWakeup && fresh(link) && link.pid == tid && link.Detached()
    {
      this.tid, descheduled, shouldWakeup := tid, true, false;
      link := new Elem(tid);
    }

    /** The flags that _cond_signal writes */
    method Wake()
      modifies this
      ensures !descheduled && shouldWakeup
    {
      descheduled := false;
      shouldWakeup := true;
    }
  }

  /** The thread is in cond_wait, where it has a node. */
  predicate HasNode(pc: Pc) {
    pc.CondLeave? || pc.CondTest? || pc.CondAsleep?
  }

  class Sem {
    var count: int
    var mux: Option<Tid>
    var cvMux: Option<Tid>
    const qp: Queue
    const links: Links
    var nodes: map<Tid, Node>
    var pc: map<Tid, Pc>
    ghost var model: State
    ghost var footprint: set<object>

    ghost predicate NodeOk(t: Tid)
      requires t in nodes
      reads this, links, nodes[t]
    {
      && nodes[t].tid == t && nodes[t].link.pid == t && t in links.elems && links.elems[t] == nodes[t].link
      && nodes[t].shouldWakeup == (t in model.woken) && (t in model.queue ==> nodes[t].descheduled)
    }

    ghost predicate NodesOk()
      reads this, links, nodes.Values
    {
      && links.elems.Keys == nodes.Keys && (forall t :: t in nodes <==> t in pc && HasNode(pc[t]))
      && forall t {:trigger NodeOk(t)} :: t in nodes ==> NodeOk(t)
    }

    ghost predicate Ready()
      reads this, links, links.heap, links.heap.queues, links.heap.elems, nodes.Values
    {
      && Covered() && links.Valid() && links.stale == {} && links.lists == map[qp := model.queue] && NodesOk()
        && VarsAre()
    }

    ghost predicate VarsAre()
      reads this
    {
      count == model.count && mux == model.mux && cvMux == model.cvMux && pc == model.pc
    }

    /** All objects of the semaphore are in the footprint. */
    ghost predicate Covered()
      reads this, links, links.heap
    {
      this in footprint && links.Frame() <= footprint && nodes.Values <= footprint
    }

    /** sem_init with cond_init */
    constructor (count: int, ts: set<Tid>, qp: Queue, links: Links)
      requires links.Valid() && links.lists == map[qp := []] && links.elems == map[] && links.stale == {}
      ensures Ready() && model == Initial(count, ts) && footprint == {this} + links.Frame()
    {
      this.count, mux, cvMux := count, None, None;
      this.qp, this.links, nodes := qp, links, map[];
      pc := map t | t in ts :: Idle;
      model := Initial(count, ts);
      footprint := {this} + links.Frame();
    }

    /** The nodes are as they were, and so is what the model says of them. */
    twostate lemma NodesStay()
      requires old(NodesOk()) && unchanged(`nodes) && links.elems == old(links.elems)
      requires forall t :: t in nodes ==> unchanged(nodes[t])
      requires forall t :: t in nodes ==> (t in model.woken <==> t in old(model).woken)
      requires model.queue == old(model).queue
      requires forall t :: t in pc && HasNode(pc[t]) <==> t in old(pc) && HasNode(old(pc)[t])
      ensures NodesOk()
    {
      forall t | t in nodes
        ensures NodeOk(t)
      {
        assert old(NodeOk(t));
      }
    }

    /** mutex_lock on the semaphore's mutex, when it can be had at once */
    method LockMux(t: Tid) returns (r: Result)
      requires Ready() && t in pc && (pc[t].WaitWant? || pc[t].SignalWant?)
      modifies this
      ensures Ready() && unchanged(`nodes, `footprint) && Follows(GoStep(old(model), t), r, old(model), model)
    {
      if mux != None {
        return NotNow;
      }
      mux := Some(t);
      pc := pc[t := if pc[t] == WaitWant then WaitTest else SignalAdd];
      model := GoStep(model, t).s;
      NodesStay();
      return Ran;
    }

    /** mutex_lock on the condition variable's mutex */
    method LockCv(t: Tid) returns (r: Result)
      requires Ready() && t in pc && (pc[t].CondWant? || pc[t].SignalCv?)
      modifies this
      ensures Ready() && unchanged(`nodes, `footprint) && Follows(GoStep(old(model), t), r, old(model), model)
    {
      if cvMux != None {
        return NotNow;
      }
      cvMux := Some(t);
      pc := pc[t := if pc[t] == CondWant then CondEnqueue else SignalPop];
      model := GoStep(model, t).s;
      NodesStay();
      return Ran;
    }

    /** The loop of sem_wait */
    method TestCount(t: Tid) returns (r: Result)
      requires Ready() && t in pc && pc[t].WaitTest?
      modifies this
      ensures Ready() && unchanged(`nodes, `footprint) && Follows(GoStep(old(model), t), r, old(model), model)
    {
      if count <= 0 {
        if count != 0 {
          return AffirmFailed;
        }
        pc := pc[t := CondWant];
      } else {
        count := count - 1;
        mux := None;
        pc := pc[t := Idle];
      }
      model := GoStep(model, t).s;
      NodesStay();
      return Ran;
    }

    /** cond_wait with its mutex: the node is built and put on the queue. */
    method Enqueue(t: Tid)
      requires Ready() && t in pc && pc[t].CondEnqueue? && t !in model.woken
      modifies footprint
      ensures Ready() && fresh(footprint - old(footprint)) && model == GoStep(old(model), t).s
    {
      var node := new Node(t);
      PlaceNode(node);
    }

    method PlaceNode(node: Node)
      requires Ready() && node.tid in pc && pc[node.tid].CondEnqueue? && node.tid !in model.woken
      requires {node, node.link} !! footprint && node.descheduled && !node.shouldWakeup && node.link.Detached()
               && node.link.pid == node.tid
      modifies footprint, node.link
      ensures Ready() && footprint == old(footprint) + {node, node.link} && model == GoStep(old(model), node.tid).s
    {
      LinkNode(node);
      pc := pc[node.tid := CondLeave];
      nodes := nodes[node.tid := node];
      model := GoStep(model, node.tid).s;
      NodesPlus(node);
    }

    method LinkNode(node: Node)
      requires Covered() && links.Valid() && links.stale == {} && links.lists == map[qp := model.queue]
               && node.tid !in links.elems
      requires {node, node.link} !! footprint && node.link.Detached() && node.link.pid == node.tid
      modifies footprint, node.link
      ensures Covered() && links.Valid() && links.stale == {} && links.lists == map[qp := model.queue + [node.tid]]
      ensures links.elems == old(links.elems)[node.tid := node.link]
      ensures unchanged(`nodes, `pc, `model, `count, `mux, `cvMux) && footprint == old(footprint) + {node, node.link}
      ensures unchanged(node) && forall t :: t in nodes ==> unchanged(nodes[t])
    {
      NewNode(node);
      footprint := footprint + {node, node.link};
    }

    /** The other nodes are as they were. */
    twostate lemma NodesPlus(new node: Node)
      requires old(NodesOk()) && node.tid !in old(nodes) && nodes == old(nodes)[node.tid := node]
      requires links.elems == old(links.elems)[node.tid := node.link] && node.link.pid == node.tid
      requires forall t :: t in old(nodes) ==> unchanged(old(nodes)[t])
      requires model.woken == old(model).woken && model.queue == old(model).queue + [node.tid]
               && node.tid !in model.woken
      requires node.descheduled && !node.shouldWakeup
      requires node.tid in pc && pc == old(pc)[node.tid := pc[node.tid]] && HasNode(pc[node.tid])
      ensures NodesOk()
    {
      forall u | u in nodes
        ensures NodeOk(u)
      {
        assert u != node.tid ==> old(NodeOk(u));
      }
    }

    /** The node's link joins the queue. */
    method NewNode(node: Node)
      requires links.Valid() && links.stale == {} && qp in links.lists && node.tid !in links.elems
      requires node.link.Detached() && node.link.pid == node.tid && node.link !in links.heap.elems
      modifies links.Frame(), node.link
      ensures links.Valid() && links.stale == {}
              && links.lists == old(links.lists)[qp := old(links.lists)[qp] + [node.tid]]
      ensures links.elems == old(links.elems)[node.tid := node.link]
      ensures links.Frame() == old(links.Frame()) + {node.link} && unchanged(this) && unchanged(node)
      ensures forall t :: t in nodes ==> unchanged(nodes[t])
    {
      if links.On(node.tid) {
        links.OnKnown(node.tid);
        assert false;
      }
      assert links.Holds(links.lists);
      links.AddElem(node.link);
      assert links.Holds(links.lists);
      links.InsertTail(qp, node.link);
    }

    /** The loop of cond_wait: sleep until should_wakeup is set.  When the flag is read set, the node ends with this
        call. */
    method TestFlag(t: Tid)
      requires Ready() && t in pc && pc[t].CondTest? && (t in model.woken ==> t !in model.queue)
      modifies footprint
      ensures Ready() && footprint == old(footprint) && model == GoStep(old(model), t).s
    {
      assert NodeOk(t);
      if nodes[t].shouldWakeup {
        EndNode(t);
      } else {
        pc := pc[t := CondAsleep];
        model := GoStep(model, t).s;
        NodesStay();
      }
    }

    method EndNode(t: Tid)
      requires Ready() && t in pc && pc[t].CondTest? && t in model.woken && t !in model.queue
      modifies footprint
      ensures Ready() && footprint == old(footprint) && model == GoStep(old(model), t).s
    {
      assert !links.On(t);
      links.DropElem(t);
      nodes := nodes - {t};
      pc := pc[t := WaitWant];
      model := GoStep(model, t).s;
      forall u | u in nodes
        ensures NodeOk(u)
      {
        assert old(NodeOk(u));
      }
    }

    /** sem_signal before cond_signal */
    method AddOne(t: Tid)
      requires Ready() && t in pc && pc[t].SignalAdd?
      modifies this
      ensures Ready() && unchanged(`nodes, `footprint) && model == GoStep(old(model), t).s
    {
      count := count + 1;
      pc := pc[t := SignalCv];
      model := GoStep(model, t).s;
      NodesStay();
    }

    /** cond_wait frees both mutexes; its node stays on the queue. */
    method LeaveWait(t: Tid)
      requires Ready() && t in pc && pc[t].CondLeave?
      modifies this
      ensures Ready() && unchanged(`nodes, `footprint) && model == GoStep(old(model), t).s
    {
      cvMux, mux := None, None;
      pc := pc[t := CondTest];
      model := GoStep(model, t).s;
      NodesStay();
    }

    /** The end of cond_signal and sem_signal */
    method LeaveSignal(t: Tid)
      requires Ready() && t in pc && pc[t].SignalLeave?
      modifies this
      ensures Ready() && unchanged(`nodes, `footprint) && model == GoStep(old(model), t).s
    {
      cvMux, mux := None, None;
      pc := pc[t := Idle];
      model := GoStep(model, t).s;
      NodesStay();
    }

    /** _cond_signal up to its loop: the front node comes off the queue, and its flags are written. */
    method PopFront(t: Tid)
      requires Ready() && t in pc && pc[t].SignalPop? && NoDup(model.queue)
      modifies footprint
      ensures Ready() && footprint == old(footprint) && model == GoStep(old(model), t).s
    {
      var front := links.Front(qp);
      if front == null {
        pc := pc[t := SignalLeave];
        model := GoStep(model, t).s;
        NodesStay();
      } else {
        links.MemberFresh(qp, front.pid);
        assert NodeOk(front.pid);
        TakeFront(t, nodes[front.pid]);
      }
    }

    method TakeFront(t: Tid, node: Node)
      requires Ready() && t in pc && pc[t].SignalPop? && NoDup(model.queue) && node.tid in nodes
               && nodes[node.tid] == node
      requires model.queue != [] && model.queue[0] == node.tid
      modifies footprint
      ensures Ready() && footprint == old(footprint) && model == GoStep(old(model), t).s
    {
      assert NodeOk(node.tid);
      WakeFront(node);
      pc := pc[t := SignalWake(node.tid)];
      model := GoStep(model, t).s;
      FrontTaken(node);
    }

    /** Q_REMOVE of the front, and its flags */
    method WakeFront(node: Node)
      requires Covered() && links.Valid() && links.stale == {} && links.lists == map[qp := model.queue]
               && links.KnownElem(node.link)
      requires model.queue != [] && model.queue[0] == node.link.pid && node in footprint && node.descheduled
      modifies footprint
      ensures Covered() && links.Valid() && links.stale == {} && links.lists == map[qp := old(model).queue[1..]]
      ensures links.elems == old(links.elems) && unchanged(this) && node.shouldWakeup
      ensures forall t :: t in nodes && nodes[t] != node ==> unchanged(nodes[t])
    {
      TakeOff(node);
      assert node.descheduled;
      node.Wake();
    }

    /** Q_REMOVE of the front */
    method TakeOff(node: Node)
      requires links.Valid() && links.stale == {} && qp in links.lists && links.KnownElem(node.link)
      requires links.lists[qp] != [] && links.lists[qp][0] == node.link.pid
      modifies links.Frame()
      ensures links.Valid() && links.stale == {} && links.lists == old(links.lists)[qp := old(links.lists)[qp][1..]]
      ensures links.elems == old(links.elems) && links.Frame() == old(links.Frame()) && unchanged(this)
      ensures forall t :: t in nodes ==> unchanged(nodes[t])
    {
      assert links.Holds(links.lists);
      links.Remove(qp, node.link);
    }

    /** One node has been told to wake up; it is not on the queue. */
    twostate lemma FrontTaken(node: Node)
      requires old(NodesOk()) && old(node.tid in nodes && nodes[node.tid] == node) && unchanged(`nodes)
               && links.elems == old(links.elems)
      requires forall u :: u in nodes && nodes[u] != node ==> unchanged(nodes[u])
      requires model.woken == old(model).woken + {node.tid} && node.shouldWakeup
      requires NoDup(old(model).queue) && old(model).queue != [] && old(model).queue[0] == node.tid
               && model.queue == old(model).queue[1..]
      requires forall u :: u in pc && HasNode(pc[u]) <==> u in old(pc) && HasNode(old(pc)[u])
      ensures NodesOk()
    {
      forall u | u in nodes
        ensures NodeOk(u)
      {
        assert old(NodeOk(u));
      }
    }

    /** The loop of _cond_signal: make_runnable fails while the thread has not descheduled itself. */
    method WakeUp(t: Tid)
      requires Ready() && t in pc && pc[t].SignalWake? && pc[t].u != t
      modifies this
      ensures Ready() && unchanged(`nodes, `footprint) && model == GoStep(old(model), t).s
    {
      var u := pc[t].u;
      if u in pc && pc[u] == CondAsleep {
        pc := pc[u := CondTest];
        pc := pc[t := SignalLeave];
      }
      model := GoStep(model, t).s;
      NodesStay();
    }

    /** Entering sem_wait or sem_signal */
    method Call(t: Tid, next: Pc) returns (r: Result)
      requires Ready() && t in pc && !HasNode(next)
      modifies this
      ensures Ready() && unchanged(`nodes, `footprint)
      ensures if old(pc)[t] == Idle then r == Ran && model == At(old(model), t, next) else r == NotNow && model == old(model)
    {
      if pc[t] != Idle {
        return NotNow;
      }
      pc := pc[t := next];
      model := At(model, t, next);
      NodesStay();
      return Ran;
    }

    /** The next step of a thread inside sem_wait or sem_signal. */
    method Move(t: Tid) returns (r: Result)
      requires Ready() && Inv(model) && t in pc
      modifies footprint
      ensures Follows(GoStep(old(model), t), r, old(model), model) && fresh(footprint - old(footprint))
      ensures Ready()
    {
      assert ThreadOk(model, t);
      r := Ran;
      match pc[t] {
        case Idle =>
          r := NotNow;
        case WaitWant =>
          r := LockMux(t);
        case WaitTest =>
          r := TestCount(t);
        case CondWant =>
          r := LockCv(t);
        case CondEnqueue =>
          Enqueue(t);
        case CondLeave =>
          LeaveWait(t);
        case CondTest =>
          TestFlag(t);
        case CondAsleep =>
          r := NotNow;
        case SignalWant =>
          r := LockMux(t);
        case SignalAdd =>
          AddOne(t);
        case SignalCv =>
          r := LockCv(t);
        case SignalPop =>
          PopFront(t);
        case SignalWake(u) =>
          assert ThreadOk(model, u);
          WakeUp(t);
        case SignalLeave =>
          LeaveSignal(t);
      }
    }

    /** One step of one thread, on the heap: the queue and the nodes stay in order, no node is used after its call of
        cond_wait, the invariant is kept, and the affirm fails only on a negative count. */
    method Act(a: Action) returns (r: Result)
      requires Ready() && Inv(model)
      modifies footprint
      ensures Ready() && fresh(footprint - old(footprint)) && Follows(Next(old(model), a), r, old(model), model)
      ensures r != AffirmFailed ==> Inv(model)
      ensures old(model).count >= 0 ==> r != AffirmFailed && model.count >= 0
    {
      if Next(model, a).Step? {
        StepInv(model, a);
      }
      if a.t !in pc {
        return NotNow;
      }
      match a
      case Wait(t) =>
        r := Call(t, WaitWant);
      case Signal(t) =>
        r := Call(t, SignalWant);
      case Go(t) =>
        r := Move(t);
    }
  }

  /** sem_init, with the head that cond_init allocates */
  method Create(count: int, ts: set<Tid>) returns (sem: Sem)
    ensures sem.Ready() && fresh(sem.footprint) && sem.model == Initial(count, ts)
  {
    var qp := new Queue();
    var links := new Links();
    links.AddQueue(qp);
    sem := new Sem(count, ts, qp, links);
  }
}
