/** The queues of one link, seen through the numbers of their elements: which numbers are on which queue, in
    which order, and which elements have pointers that mean nothing. */
module NamedQueues {
  import opened Seqs
  import opened IntrusiveQueue

  class Links {
    const heap: LinkHeap
    ghost var lists: map<Queue, seq<nat>>
    ghost var elems: map<nat, Elem>
    ghost var stale: set<nat>

    ghost predicate ListIs(q: Queue, ids: seq<nat>)
      reads this, q
    {
      |q.Elems| == |ids| && forall i {:trigger ids[i]} :: 0 <= i < |ids| ==> ids[i] in elems && q.Elems[i] == elems[ids[i]]
    }

    ghost predicate QueueOk(q: Queue)
      requires q in lists
      reads this, q
    {
      ListIs(q, lists[q])
    }

    ghost predicate ElemOk(n: nat)
      requires n in elems
      reads this, heap
    {
      elems[n].pid == n && elems[n] in heap.elems && (n in stale <==> elems[n] in heap.stale)
    }

    ghost predicate KnownElem(e: Elem)
      reads this
    {
      e.pid in elems && elems[e.pid] == e
    }

    /** What Valid means for the lists `ls`. */
    ghost predicate Holds(ls: map<Queue, seq<nat>>)
      reads this, heap, heap.queues, heap.elems
    {
      && ls == lists && heap.Valid() && lists.Keys == heap.queues && stale <= elems.Keys && heap.stale <= heap.elems
      && (forall q {:trigger QueueOk(q)} :: q in heap.queues ==> QueueOk(q))
      && (forall n {:trigger ElemOk(n)} :: n in elems ==> ElemOk(n))
      && (forall e {:trigger KnownElem(e)} :: e in heap.elems ==> KnownElem(e))
    }

    /** In this form a proof about the lists does not see the pointers. */
    ghost predicate Valid()
      reads this, heap, heap.queues, heap.elems
    {
      forall ls {:trigger Holds(ls)} :: ls == lists ==> Holds(ls)
    }

    /** On some queue of the link. */
    ghost predicate On(n: nat)
      reads this
    {
      exists q :: q in lists && n in lists[q]
    }

    ghost function Frame(): set<object>
      reads this, heap
    {
      {this, heap} + heap.queues + heap.elems
    }

    /** Nothing of the link was written. */
    twostate predicate Untouched()
      reads this, heap, heap.queues, heap.elems
    {
      unchanged(this) && heap.Unwritten()
    }

    twostate lemma StaysValid()
      requires old(Valid()) && Untouched()
      ensures Valid() && Frame() == old(Frame())
    {
      assert old(Holds(lists));
      heap.StaysValid();
      forall q | q in heap.queues
        ensures QueueOk(q)
      {
        assert old(QueueOk(q));
      }
      forall n | n in elems
        ensures ElemOk(n)
      {
        assert old(ElemOk(n));
      }
      forall e | e in heap.elems
        ensures KnownElem(e)
      {
        assert old(KnownElem(e));
      }
      assert Holds(lists);
    }

    /** No queue and no element yet. */
    constructor ()
      ensures Valid() && lists == map[] && elems == map[] && stale == {} && fresh(Frame())
    {
      heap := new LinkHeap({}, {});
      lists, elems, stale := map[], map[], {};
      new;
      assert Holds(lists);
    }

    lemma OnQueue(q: Queue, n: nat)
      requires Holds(lists) && q in lists && n in elems
      ensures elems[n] in q.Elems <==> n in lists[q]
    {
      assert QueueOk(q) && ElemOk(n);
      if n in lists[q] {
        var i :| 0 <= i < |lists[q]| && lists[q][i] == n;
        assert q.Elems[i] in q.Elems;
      }
      if elems[n] in q.Elems {
        var i :| 0 <= i < |q.Elems| && q.Elems[i] == elems[n];
        assert ElemOk(lists[q][i]);
      }
    }

    lemma OffIsFree(n: nat)
      requires Holds(lists) && n in elems
      ensures heap.Free(elems[n]) <==> !On(n)
    {
      forall q | q in lists
        ensures elems[n] in q.Elems <==> n in lists[q]
      {
        OnQueue(q, n);
      }
    }

    /** Q_IN_SOME_QUEUE is false of an element that is on no queue and not stale, and of the only one of a queue. */
    lemma NotSeen(n: nat)
      requires Valid() && n in elems && n !in stale
      requires forall q :: q in lists && n in lists[q] ==> |lists[q]| == 1
      ensures !elems[n].InSomeQueue()
    {
      assert Holds(lists) && ElemOk(n);
      heap.InSomeQueueIff(elems[n]);
      forall q | q in lists && elems[n] in q.Elems
        ensures |q.Elems| == 1
      {
        OnQueue(q, n);
        assert QueueOk(q);
      }
    }

    /** A member of a queue is not stale. */
    lemma MemberFresh(q: Queue, n: nat)
      requires Valid() && q in lists && n in lists[q]
      ensures n in elems && n !in stale
    {
      assert Holds(lists) && QueueOk(q);
      var i :| 0 <= i < |lists[q]| && lists[q][i] == n;
      assert ElemOk(n) && heap.ClearedOk(elems[n]) && q.Elems[i] in q.Elems;
    }

    /** What is on a queue is an element of the link. */
    lemma OnKnown(n: nat)
      requires Valid() && On(n)
      ensures n in elems
    {
      assert Holds(lists);
      var q :| q in lists && n in lists[q];
      assert QueueOk(q);
      var i :| 0 <= i < |lists[q]| && lists[q][i] == n;
    }

    /** One link, one queue. */
    lemma OneQueue(q: Queue, r: Queue, n: nat)
      requires Valid() && q in lists && r in lists && n in lists[q] && n in lists[r]
      ensures q == r
    {
      MemberFresh(q, n);
      assert Holds(lists) && ElemOk(n);
      OnQueue(q, n);
      OnQueue(r, n);
      assert heap.Apart(q, r, elems[n]);
    }

    // ------------------------------------------------------------------ operations

    /** Of the queues only q was written. */
    twostate lemma Rest(q: Queue)
      requires old(Holds(lists)) && unchanged(this) && heap.Valid() && q in lists
      requires heap.queues == old(heap.queues) && heap.elems == old(heap.elems) && heap.stale == old(heap.stale)
      requires forall r :: r in heap.queues && r != q ==> r.Elems == old(r.Elems)
      ensures forall r :: r in lists && r != q ==> QueueOk(r)
      ensures forall n :: n in elems ==> ElemOk(n)
      ensures forall e :: e in heap.elems ==> KnownElem(e)
    {
      forall r | r in lists && r != q
        ensures QueueOk(r)
      {
        assert old(QueueOk(r));
      }
      forall n | n in elems
        ensures ElemOk(n)
      {
        assert old(ElemOk(n));
      }
      forall e | e in heap.elems
        ensures KnownElem(e)
      {
        assert old(KnownElem(e));
      }
    }

    method InsertTail(q: Queue, e: Elem)
      requires Valid() && q in lists && KnownElem(e) && !On(e.pid) && e.pid !in stale
      modifies this`lists, q, heap.elems
      ensures Valid() && lists == old(lists)[q := old(lists)[q] + [e.pid]]
    {
      assert Holds(lists) && ElemOk(e.pid) && QueueOk(q);
      OffIsFree(e.pid);
      heap.InsertTail(q, e);
      Rest(q);
      lists := lists[q := lists[q] + [e.pid]];
      Requeued(q);
    }

    /** Only the list of q has changed, and it is as q says. */
    twostate lemma Requeued(q: Queue)
      requires q in old(lists) && q in lists && lists == old(lists)[q := lists[q]] && elems == old(elems)
      requires heap.Valid() && old(lists).Keys == heap.queues && stale <= elems.Keys && heap.stale <= heap.elems
               && QueueOk(q)
      requires forall r :: r in old(lists) && r != q ==> ListIs(r, old(lists)[r])
      requires forall n :: n in elems ==> ElemOk(n)
      requires forall e :: e in heap.elems ==> KnownElem(e)
      ensures Valid()
    {
      forall r | r in lists
        ensures QueueOk(r)
      {
        assert r != q ==> ListIs(r, old(lists)[r]);
      }
      assert Holds(lists);
    }

    lemma Position(q: Queue, n: nat) returns (k: nat)
      requires Holds(lists) && q in lists && n in elems && n in lists[q]
      ensures k < |lists[q]| && lists[q][k] == n && k < |q.Elems| && q.Elems[k] == elems[n]
      ensures Without(lists[q], n) == lists[q][..k] + lists[q][k + 1..]
    {
      assert QueueOk(q) && heap.QueueOk(q);
      k :| 0 <= k < |lists[q]| && lists[q][k] == n;
      forall i | 0 <= i < k
        ensures lists[q][i] != n
      {
        assert q.Elems[i] != q.Elems[k];
      }
      WithoutIs(lists[q], k);
    }

    method Remove(q: Queue, e: Elem)
      requires Valid() && q in lists && KnownElem(e) && e.pid in lists[q]
      modifies this`lists, q, heap.elems
      ensures Valid() && !On(e.pid) && lists == old(lists)[q := Without(old(lists)[q], e.pid)]
    {
      assert Holds(lists) && QueueOk(q) && ElemOk(e.pid);
      ghost var k := Position(q, e.pid);
      heap.Remove(q, e, k);
      Rest(q);
      lists := lists[q := Without(lists[q], e.pid)];
      Requeued(q);
      assert Holds(lists);
      OffIsFree(e.pid);
    }

    /** Q_GET_FRONT */
    method Front(q: Queue) returns (e: Elem?)
      requires Valid() && q in lists
      ensures Valid()
      ensures if lists[q] == [] then e == null else e != null && KnownElem(e) && e.pid == lists[q][0]
    {
      assert Holds(lists) && QueueOk(q) && heap.QueueOk(q);
      e := q.front;
      if e != null {
        assert e == q.Elems[0] && ElemOk(lists[q][0]);
      }
    }

    /** What the two pointers of a head say. */
    lemma EndsAre(q: Queue)
      requires Valid() && q in lists
      ensures if lists[q] == [] then q.front == q.tail == null
              else q.front != null && KnownElem(q.front) && q.front.pid == lists[q][0]
                   && q.tail != null && KnownElem(q.tail) && q.tail.pid == lists[q][|lists[q]| - 1]
    {
      assert Holds(lists) && QueueOk(q) && heap.QueueOk(q);
      if lists[q] != [] {
        assert q.front == q.Elems[0] && ElemOk(lists[q][0]);
        assert q.tail == q.Elems[|q.Elems| - 1] && ElemOk(lists[q][|q.Elems| - 1]);
      }
    }

    lemma PidsAre(q: Queue)
      requires Holds(lists) && q in lists
      ensures |q.Elems| == |lists[q]|
      ensures forall i {:trigger lists[q][i]} {:trigger q.Elems[i]} :: 0 <= i < |lists[q]| ==>
                q.Elems[i].pid == lists[q][i] && KnownElem(q.Elems[i]) && q.Elems[i] in q.Elems
    {
      assert QueueOk(q);
      forall i | 0 <= i < |lists[q]|
        ensures q.Elems[i].pid == lists[q][i] && KnownElem(q.Elems[i])
      {
        assert ElemOk(lists[q][i]);
      }
    }

    /** The walk of find_pcb. */
    method Find(q: Queue, n: nat) returns (e: Elem?)
      requires Valid() && q in lists
      ensures Valid()
      ensures if n in lists[q] then e != null && KnownElem(e) && e.pid == n else e == null
    {
      assert Holds(lists) && heap.QueueOk(q);
      PidsAre(q);
      e := q.FindPid(n);
    }

    /** Q_APPEND */
    method Append(q: Queue, suffix: Queue)
      requires Valid() && q in lists && suffix in lists && q != suffix
      modifies this`lists, q, suffix, heap.elems
      ensures Valid() && lists == old(lists)[q := old(lists)[q] + old(lists)[suffix]][suffix := []]
    {
      assert Holds(lists) && QueueOk(q) && QueueOk(suffix);
      heap.Append(q, suffix);
      forall r | r in lists && r != q && r != suffix
        ensures QueueOk(r)
      {
        assert old(QueueOk(r));
      }
      lists := lists[q := lists[q] + lists[suffix]][suffix := []];
      forall r | r in lists
        ensures QueueOk(r)
      {
        assert r != q && r != suffix ==> ListIs(r, old(lists)[r]);
      }
      forall n | n in elems
        ensures ElemOk(n)
      {
        assert old(ElemOk(n));
      }
      forall e | e in heap.elems
        ensures KnownElem(e)
      {
        assert old(KnownElem(e));
      }
      assert Holds(lists);
    }

    /** Q_INIT_HEAD: the queue is empty, its elements are stale. */
    method InitHead(q: Queue)
      requires Valid() && q in lists
      modifies this`lists, this`stale, heap, q
      ensures Valid() && lists == old(lists)[q := []] && stale == old(stale) + old(set n | n in lists[q])
      ensures heap.elems == old(heap.elems) && heap.queues == old(heap.queues)
    {
      assert Holds(lists) && QueueOk(q);
      Marked(q);
      heap.MembersFresh(q);
      ghost var ids := lists[q];
      heap.InitHead(q);
      lists, stale := lists[q := []], stale + set n | n in ids;
      forall r | r in lists
        ensures QueueOk(r)
      {
        assert r != q ==> old(QueueOk(r));
      }
      forall n | n in elems
        ensures ElemOk(n)
      {
        assert old(ElemOk(n));
      }
      forall e | e in heap.elems
        ensures KnownElem(e)
      {
        assert old(KnownElem(e));
      }
      assert Holds(lists);
    }

    lemma Marked(q: Queue)
      requires Holds(lists) && q in lists
      ensures forall n :: n in elems ==> (elems[n] in q.Elems <==> n in lists[q])
      ensures forall n :: n in lists[q] ==> n in elems
    {
      assert QueueOk(q);
      forall n | n in elems
        ensures elems[n] in q.Elems <==> n in lists[q]
      {
        OnQueue(q, n);
      }
    }

    /** Q_INIT_ELEM */
    method InitElem(e: Elem)
      requires Valid() && KnownElem(e) && !On(e.pid)
      modifies this`stale, heap, e
      ensures Valid() && stale == old(stale) - {e.pid}
      ensures heap.elems == old(heap.elems) && heap.queues == old(heap.queues)
    {
      assert Holds(lists) && ElemOk(e.pid);
      OffIsFree(e.pid);
      heap.InitElem(e);
      stale := stale - {e.pid};
      forall r | r in lists
        ensures QueueOk(r)
      {
        assert old(QueueOk(r));
      }
      forall n | n in elems
        ensures ElemOk(n)
      {
        assert old(ElemOk(n));
      }
      forall x | x in heap.elems
        ensures KnownElem(x)
      {
        assert old(KnownElem(x));
      }
      assert Holds(lists);
    }

    // ------------------------------------------------------------------ structures come and go

    ghost method AddElem(e: Elem)
      requires Valid() && e.pid !in elems && e !in heap.elems && e.Detached()
      modifies this`elems, heap
      ensures Valid() && elems == old(elems)[e.pid := e] && e.pid !in stale
      ensures heap.elems == old(heap.elems) + {e} && heap.queues == old(heap.queues)
    {
      assert Holds(lists);
      heap.AddElem(e);
      elems := elems[e.pid := e];
      forall r | r in lists
        ensures QueueOk(r)
      {
        assert old(QueueOk(r));
      }
      forall n | n in elems
        ensures ElemOk(n)
      {
        assert n != e.pid ==> old(ElemOk(n));
      }
      forall x | x in heap.elems
        ensures KnownElem(x)
      {
        assert x != e ==> old(KnownElem(x));
      }
      assert Holds(lists);
    }

    ghost method AddQueue(q: Queue)
      requires Valid() && q !in lists && q.Valid() && q.Elems == []
      modifies this`lists, heap
      ensures Valid() && lists == old(lists)[q := []]
      ensures heap.elems == old(heap.elems) && heap.queues == old(heap.queues) + {q}
    {
      assert Holds(lists);
      heap.AddQueue(q);
      lists := lists[q := []];
      forall r | r in lists
        ensures QueueOk(r)
      {
        assert r != q ==> old(QueueOk(r));
      }
      forall n | n in elems
        ensures ElemOk(n)
      {
        assert old(ElemOk(n));
      }
      forall x | x in heap.elems
        ensures KnownElem(x)
      {
        assert old(KnownElem(x));
      }
      assert Holds(lists);
    }

    ghost method DropElem(n: nat)
      requires Valid() && n in elems && !On(n)
      modifies this`elems, this`stale, heap
      ensures Valid() && elems == old(elems) - {n} && stale == old(stale) - {n}
      ensures heap.elems <= old(heap.elems) && heap.queues == old(heap.queues)
    {
      assert Holds(lists) && ElemOk(n);
      OffIsFree(n);
      heap.DropElem(elems[n]);
      elems, stale := elems - {n}, stale - {n};
      forall r | r in lists
        ensures QueueOk(r)
      {
        assert old(QueueOk(r));
        assert forall i :: 0 <= i < |lists[r]| ==> lists[r][i] in lists[r];
      }
      forall m | m in elems
        ensures ElemOk(m)
      {
        assert old(ElemOk(m));
      }
      forall x | x in heap.elems
        ensures KnownElem(x)
      {
        assert old(KnownElem(x));
      }
      assert Holds(lists);
    }

    /** A structure with a queue head is freed, and so is what is still on the queue. */
    ghost method DropQueue(q: Queue)
      requires Valid() && q in lists
      modifies this`lists, this`elems, heap
      ensures Valid() && lists == old(lists) - {q} && elems == old(elems) - (set n | n in old(lists)[q])
      ensures heap.elems <= old(heap.elems) && heap.queues == old(heap.queues) - {q}
    {
      assert Holds(lists) && QueueOk(q);
      Marked(q);
      PidsAre(q);
      heap.ApartFrom(q);
      heap.MembersFresh(q);
      forall n | n in lists[q]
        ensures n !in stale
      {
        MemberFresh(q, n);
      }
      heap.DropQueue(q);
      elems := elems - set n | n in lists[q];
      lists := lists - {q};
      forall r | r in lists
        ensures QueueOk(r)
      {
        DroppedApart(q, r);
      }
      forall m | m in elems
        ensures ElemOk(m)
      {
        assert old(ElemOk(m));
      }
      forall x | x in heap.elems
        ensures KnownElem(x)
      {
        assert old(KnownElem(x));
      }
      assert Holds(lists);
    }

    /** A queue beside the one that is freed loses nothing. */
    twostate lemma DroppedApart(q: Queue, new r: Queue)
      requires old(Holds(lists)) && q in old(lists) && r in old(lists) && r != q && r in lists
               && lists[r] == old(lists)[r]
      requires old(r.Elems) == r.Elems
      requires elems == old(elems) - set n | n in old(lists)[q]
      ensures QueueOk(r)
    {
      assert old(QueueOk(r)) && old(QueueOk(q)) && old(heap.QueueOk(r));
      ghost var ids, xs := old(lists)[q], old(q.Elems);
      forall i, j | 0 <= i < |lists[r]| && 0 <= j < |ids|
        ensures lists[r][i] != ids[j]
      {
        assert r.Elems[i] in r.Elems && xs[j] in xs && old(heap.Apart(q, r, r.Elems[i]));
        assert r.Elems[i] != xs[j];
      }
    }
  }
}
