/** The intrusive doubly linked queue of p3/kern/variable_queue.h.

    An element carries its own link; a queue head holds only a front and a tail pointer.  One link can
    be in at most one queue, and nothing in the element says which one.  `Queue` verifies the macros on
    one queue as heap code; `LinkHeap` collects every queue that shares one link name, which is the
    level at which the callers' obligation "in at most one queue" can be stated. */
module IntrusiveQueue {

  /** A structure holding one link.  `pid` stands for the payload that searches look at. */
  class Elem {
    const pid: nat
    var prev: Elem?
    var next: Elem?

    /** Q_INIT_ELEM at creation */
    constructor (pid: nat)
      ensures this.pid == pid && prev == null && next == null
    {
      this.pid := pid;
      prev, next := null, null;
    }

    predicate Detached()
      reads this
    {
      prev == null && next == null
    }

    /** Q_IN_SOME_QUEUE: looks at the two link pointers only. */
    predicate InSomeQueue()
      reads this
    {
      next != null || prev != null
    }
  }

  ghost predicate Distinct<T>(s: seq<T>) {
    forall i, j :: 0 <= i < j < |s| ==> s[i] != s[j]
  }

  ghost function WithoutAt<T>(s: seq<T>, k: nat): seq<T>
    requires k < |s|
  {
    s[..k] + s[k + 1..]
  }

  lemma WithoutAtMembers<T>(s: seq<T>, k: nat)
    requires k < |s| && Distinct(s)
    ensures forall x :: x in WithoutAt(s, k) <==> x in s && x != s[k]
  {
    forall x | x in s && x != s[k]
      ensures x in WithoutAt(s, k)
    {
      var i :| 0 <= i < |s| && s[i] == x;
      assert x == WithoutAt(s, k)[if i < k then i else i - 1];
    }
  }

  class Queue {
    var front: Elem?
    var tail: Elem?
    ghost var Elems: seq<Elem>

    /** The heap between `front` and `tail` is exactly the doubly linked list over Elems. */
    ghost predicate Valid()
      reads this, Elems
    {
      && Distinct(Elems)
      && (front == null <==> Elems == [])
      && (tail == null <==> Elems == [])
      && (Elems != [] ==>
            && front == Elems[0]
            && tail == Elems[|Elems| - 1]
            && Elems[0].prev == null
            && Elems[|Elems| - 1].next == null)
      && (forall i {:trigger Elems[i].prev} :: 1 <= i < |Elems| ==> Elems[i].prev == Elems[i - 1])
      && (forall i {:trigger Elems[i].next} :: 0 <= i < |Elems| - 1 ==> Elems[i].next == Elems[i + 1])
    }

    /** Q_INIT_HEAD */
    constructor ()
      ensures Valid() && Elems == []
    {
      front, tail := null, null;
      Elems := [];
    }

    /** Q_INSERT_FRONT; the affirms of the macro are the link half of the precondition. */
    method InsertFront(e: Elem)
      requires Valid() && e !in Elems && e.Detached()
      modifies this, e, Elems
      ensures Valid() && Elems == [e] + old(Elems)
    {
      if front == null {
        front := e;
        tail := e;
      } else {
        front.prev := e;
        e.next := front;
        front := e;
      }
      Elems := [e] + Elems;
    }

    /** Q_INSERT_TAIL */
    method InsertTail(e: Elem)
      requires Valid() && e !in Elems && e.Detached()
      modifies this, e, Elems
      ensures Valid() && Elems == old(Elems) + [e]
    {
      if tail == null {
        front := e;
        tail := e;
      } else {
        tail.next := e;
        e.prev := tail;
        tail := e;
      }
      Elems := Elems + [e];
    }

    /** Q_REMOVE: the macro is given the element, not its position, and decides by pointer comparison. */
    method Remove(e: Elem, ghost k: nat)
      requires Valid() && k < |Elems| && Elems[k] == e
      modifies this, Elems
      ensures Valid() && Elems == WithoutAt(old(Elems), k)
      ensures e.Detached() && e !in Elems
    {
      if e == front && e == tail {
        front := null;
        tail := null;
      } else if e == front {
        front := e.next;
        front.prev := null;
      } else if e == tail {
        tail := e.prev;
        tail.next := null;
      } else {
        assert 0 < k < |Elems| - 1;
        e.next.prev := e.prev;
        e.prev.next := e.next;
      }
      e.next := null;
      e.prev := null;
      Elems := WithoutAt(Elems, k);
    }

    /** Q_APPEND: moves all of `suffix` behind this queue in constant time and leaves it empty. */
    method Append(suffix: Queue)
      requires Valid() && suffix.Valid() && suffix != this
      requires forall e :: e in Elems ==> e !in suffix.Elems
      modifies this, suffix, Elems, suffix.Elems
      ensures Valid() && suffix.Valid()
      ensures Elems == old(Elems) + old(suffix.Elems)
      ensures suffix.Elems == []
    {
      ghost var s, t := Elems, suffix.Elems;
      forall i, j | 0 <= i < |s| && 0 <= j < |t|
        ensures s[i] != t[j]
      {
        assert s[i] in s && t[j] in t;
      }
      if front == null && suffix.front == null {
      } else if front != null && suffix.front == null {
      } else if front == null && suffix.front != null {
        front := suffix.front;
        suffix.front := null;
        tail := suffix.tail;
        suffix.tail := null;
      } else {
        tail.next := suffix.front;
        suffix.front.prev := tail;
        tail := suffix.tail;
        suffix.front := null;
        suffix.tail := null;
      }
      Elems := Elems + suffix.Elems;
      suffix.Elems := [];
    }

    /** The walk of find_pcb: front, then next pointers, until the pid matches. */
    method FindPid(pid: nat) returns (res: Elem?)
      requires Valid()
      ensures res == null <==> forall e :: e in Elems ==> e.pid != pid
      ensures res != null ==> exists k :: 0 <= k < |Elems| && Elems[k] == res && res.pid == pid
                                          && forall j :: 0 <= j < k ==> Elems[j].pid != pid
    {
      res := front;
      ghost var k := 0;
      while res != null && res.pid != pid
        invariant 0 <= k <= |Elems|
        invariant if k < |Elems| then res == Elems[k] else res == null
        invariant forall j :: 0 <= j < k ==> Elems[j].pid != pid
        decreases |Elems| - k
      {
        assert k + 1 < |Elems| ==> Elems[k].next == Elems[k + 1];
        res := res.next;
        k := k + 1;
      }
    }
  }

  /** Every queue threaded through one link name, and every element that has that link.  An element is stale
      when the head of its queue was initialised again: it is on no queue, and its pointers mean nothing. */
  class LinkHeap {
    ghost var queues: set<Queue>
    ghost var elems: set<Elem>
    ghost var stale: set<Elem>

    /** Empty queues and elements that Q_INIT_ELEM has cleared. */
    constructor (ghost queues: set<Queue>, ghost elems: set<Elem>)
      requires forall q :: q in queues ==> q.Valid() && q.Elems == []
      requires forall e :: e in elems ==> e.Detached()
      ensures Valid() && this.queues == queues && this.elems == elems && stale == {}
    {
      this.queues, this.elems, stale := queues, elems, {};
      new;
      forall q | q in queues
        ensures QueueOk(q) && Covered(q)
      {
        assert q.Valid() && q.Elems == [];
      }
      assert forall q, r, e :: q in queues && r in queues && e in elems ==> Apart(q, r, e);
      assert forall e :: e in elems ==> ClearedOk(e);
    }

    ghost predicate QueueOk(q: Queue)
      reads this, q, q.Elems
    {
      q.Valid() && forall e :: e in q.Elems ==> e in elems
    }

    ghost predicate Apart(q: Queue, r: Queue, e: Elem)
      reads q, r
    {
      e in q.Elems && e in r.Elems ==> q == r
    }

    ghost predicate Free(e: Elem)
      reads this, queues
    {
      forall q :: q in queues ==> e !in q.Elems
    }

    ghost predicate ClearedOk(e: Elem)
      reads this, queues, e
    {
      if e in stale then Free(e) else Free(e) ==> e.Detached()
    }

    /** Queues are well formed and share no element, and an element outside all of them has a
        cleared link unless it is stale. */
    ghost predicate Valid()
      reads this, queues, elems
    {
      && (forall q {:trigger QueueOk(q)} :: q in queues ==> Covered(q) && QueueOk(q))
      && (forall q, r, e {:trigger Apart(q, r, e)} :: q in queues && r in queues && e in elems ==> Apart(q, r, e))
      && (forall e {:trigger ClearedOk(e)} :: e in elems ==> ClearedOk(e))
    }

    /** What lets Valid read the elements of its queues. */
    ghost predicate Covered(q: Queue)
      reads this, q
    {
      forall e :: e in q.Elems ==> e in elems
    }

    /** What Q_IN_SOME_QUEUE decides: membership in a queue of at least two elements.  The only
        element of a queue is not reported. */
    lemma InSomeQueueIff(e: Elem)
      requires Valid() && e in elems && e !in stale
      ensures e.InSomeQueue() <==> exists q :: q in queues && e in q.Elems && |q.Elems| >= 2
    {
      assert ClearedOk(e);
      if !Free(e) {
        var q :| q in queues && e in q.Elems;
        var k :| 0 <= k < |q.Elems| && q.Elems[k] == e;
        assert QueueOk(q);
        forall r | r in queues && e in r.Elems
          ensures r == q
        {
          assert Apart(q, r, e);
        }
        if |q.Elems| >= 2 {
          if k == 0 {
            assert q.Elems[k].next == q.Elems[k + 1];
          } else {
            assert q.Elems[k].prev == q.Elems[k - 1];
          }
        }
      }
    }

    /** The insertion macros affirm cleared links to catch double insertion.  The check misses exactly
        the elements that are alone in some queue. */
    lemma InsertAffirmBlindSpot(e: Elem)
      requires Valid() && e in elems && e !in stale
      ensures e.Detached() && !Free(e) <==> exists q :: q in queues && q.Elems == [e]
    {
      InSomeQueueIff(e);
      if e.Detached() && !Free(e) {
        var q :| q in queues && e in q.Elems;
        assert |q.Elems| == 1;
        assert q.Elems == [e];
      }
      if q :| q in queues && q.Elems == [e] {
        assert QueueOk(q) && e in q.Elems;
      }
    }

    /** Nothing on the link was written. */
    twostate predicate Unwritten()
      reads this, queues, elems
    {
      && unchanged(this)
      && (forall q {:trigger q in queues} :: q in queues ==> unchanged(q))
      && (forall e {:trigger e in elems} :: e in elems ==> unchanged(e))
    }

    twostate lemma StaysValid()
      requires old(Valid()) && Unwritten()
      ensures Valid()
    {
      forall q | q in queues
        ensures q.Elems == old(q.Elems)
      {
        assert q in queues;
      }
      forall q | q in queues
        ensures QueueOk(q)
      {
        assert q in queues && old(QueueOk(q));
        forall x | x in q.Elems
          ensures unchanged(x)
        {
          assert x in elems;
        }
        Untouched(q);
      }
      forall q, r, e | q in queues && r in queues && e in elems
        ensures Apart(q, r, e)
      {
        assert q in queues && r in queues && old(Apart(q, r, e));
      }
      forall e | e in elems
        ensures ClearedOk(e)
      {
        assert e in elems && old(ClearedOk(e)) && (Free(e) <==> old(Free(e)));
      }
    }

    /** What was not written is as well formed as before. */
    twostate lemma Untouched(r: Queue)
      requires old(Valid()) && r in queues && unchanged(this) && unchanged(r)
      requires forall x :: x in r.Elems ==> unchanged(x)
      ensures QueueOk(r)
    {
      assert old(QueueOk(r));
      assert forall i {:trigger r.Elems[i]} :: 0 <= i < |r.Elems| ==> r.Elems[i] in r.Elems;
    }

    /** No element of q is on another queue. */
    lemma ApartFrom(q: Queue)
      requires Valid() && q in queues
      ensures forall r, e :: r in queues && r != q && e in q.Elems ==> e !in r.Elems
      ensures QueueOk(q)
    {
      assert QueueOk(q);
      forall r, e | r in queues && r != q && e in q.Elems
        ensures e !in r.Elems
      {
        assert Apart(q, r, e);
      }
    }

    /** The elements of a queue are not stale. */
    lemma MembersFresh(q: Queue)
      requires Valid() && q in queues
      ensures forall e :: e in q.Elems ==> e in elems && e !in stale
    {
      assert QueueOk(q);
      forall e | e in q.Elems
        ensures e !in stale
      {
        assert ClearedOk(e);
      }
    }

    /** q has lost, kept or got elements that were free or its own. */
    twostate lemma Rejoined(q: Queue, new e: Elem)
      requires old(Valid()) && unchanged(this) && q in queues && e in old(elems) && q.Valid()
      requires forall r :: r in queues && r != q ==> unchanged(r)
      requires forall x :: x in elems && x != e && x !in old(q.Elems) ==> unchanged(x)
      requires forall x :: x in q.Elems ==> x in old(q.Elems) || (x == e && old(Free(e)))
      requires forall x :: x in old(q.Elems) && x !in q.Elems ==> x.Detached()
      requires e in q.Elems || e.Detached()
      requires e in old(q.Elems) || (old(Free(e)) && e !in stale)
      ensures Valid()
    {
      ApartFromOld(q);
      assert old(QueueOk(q));
      forall r | r in queues
        ensures QueueOk(r)
      {
        assert old(QueueOk(r));
        if r != q {
          assert r.Elems == old(r.Elems);
          forall x | x in r.Elems
            ensures unchanged(x)
          {
            assert x in elems && x !in old(q.Elems);
          }
          Untouched(r);
        }
      }
      forall r, s, x | r in queues && s in queues && x in elems
        ensures Apart(r, s, x)
      {
        assert old(Apart(r, s, x));
      }
      forall x | x in elems
        ensures ClearedOk(x)
      {
        assert old(ClearedOk(x));
      }
    }

    twostate lemma ApartFromOld(q: Queue)
      requires old(Valid()) && unchanged(this) && q in queues
      ensures forall r, e :: r in queues && r != q && e in old(q.Elems) ==> e !in old(r.Elems)
    {
      assert old(QueueOk(q));
      forall r, e | r in queues && r != q && e in old(q.Elems)
        ensures e !in old(r.Elems)
      {
        assert old(Apart(q, r, e));
      }
    }

    /** A structure is created; its link is cleared. */
    ghost method AddElem(e: Elem)
      requires Valid() && e !in elems && e !in stale && e.Detached()
      modifies this
      ensures Valid() && elems == old(elems) + {e} && queues == old(queues) && stale == old(stale) && Free(e)
              && e !in stale
    {
      elems := elems + {e};
      forall q | q in queues
        ensures QueueOk(q) && e !in q.Elems
      {
        assert old(QueueOk(q));
      }
      forall q, r, x | q in queues && r in queues && x in elems
        ensures Apart(q, r, x)
      {
        assert x != e ==> old(Apart(q, r, x));
      }
      forall x | x in elems
        ensures ClearedOk(x)
      {
        assert x != e ==> old(ClearedOk(x));
      }
    }

    /** A structure is created with a queue head, which Q_INIT_HEAD has cleared. */
    ghost method AddQueue(q: Queue)
      requires Valid() && q !in queues && q.Valid() && q.Elems == []
      modifies this
      ensures Valid() && queues == old(queues) + {q} && elems == old(elems) && stale == old(stale)
    {
      queues := queues + {q};
      forall r | r in queues
        ensures QueueOk(r)
      {
        assert r != q ==> old(QueueOk(r));
      }
      forall r, s, x | r in queues && s in queues && x in elems
        ensures Apart(r, s, x)
      {
        assert r != q && s != q ==> old(Apart(r, s, x));
      }
      forall x | x in elems
        ensures ClearedOk(x)
      {
        assert old(ClearedOk(x));
      }
    }

    /** A structure is freed, with a queue head and what is still on it. */
    ghost method DropQueue(q: Queue)
      requires Valid() && q in queues
      modifies this
      ensures Valid() && queues == old(queues) - {q} && elems == old(elems) - (set e | e in q.Elems)
              && stale == old(stale)
    {
      ApartFrom(q);
      queues := queues - {q};
      elems := elems - set e | e in q.Elems;
      forall r | r in queues
        ensures QueueOk(r)
      {
        assert old(QueueOk(r));
      }
      forall r, s, x | r in queues && s in queues && x in elems
        ensures Apart(r, s, x)
      {
        assert old(Apart(r, s, x));
      }
      forall x | x in elems
        ensures ClearedOk(x)
      {
        assert old(ClearedOk(x));
      }
    }

    /** A structure is freed whose link is on no queue. */
    ghost method DropElem(e: Elem)
      requires Valid() && Free(e)
      modifies this
      ensures Valid() && queues == old(queues) && elems == old(elems) - {e} && stale == old(stale) - {e}
    {
      elems, stale := elems - {e}, stale - {e};
      forall r | r in queues
        ensures QueueOk(r)
      {
        assert old(QueueOk(r));
      }
      forall r, s, x | r in queues && s in queues && x in elems
        ensures Apart(r, s, x)
      {
        assert old(Apart(r, s, x));
      }
      forall x | x in elems
        ensures ClearedOk(x)
      {
        assert old(ClearedOk(x));
      }
    }

    /** Q_INIT_HEAD on a queue in use: its elements are on no queue, and keep their pointers. */
    method InitHead(q: Queue)
      requires Valid() && q in queues
      modifies this, q
      ensures Valid() && q.Elems == [] && stale == old(stale) + old(set e | e in q.Elems)
      ensures queues == old(queues) && elems == old(elems)
      ensures forall r :: r in queues && r != q ==> r.Elems == old(r.Elems)
    {
      ApartFrom(q);
      ghost var es := set e | e in q.Elems;
      q.front, q.tail := null, null;
      q.Elems := [];
      stale := stale + es;
      forall r | r in queues
        ensures QueueOk(r)
      {
        assert old(QueueOk(r));
      }
      forall r, s, x | r in queues && s in queues && x in elems
        ensures Apart(r, s, x)
      {
        assert old(Apart(r, s, x));
      }
      forall x | x in elems
        ensures ClearedOk(x)
      {
        assert old(ClearedOk(x));
      }
    }

    /** Q_INIT_ELEM on an element that may be stale. */
    method InitElem(e: Elem)
      requires Valid() && e in elems && Free(e)
      modifies this, e
      ensures Valid() && stale == old(stale) - {e} && queues == old(queues) && elems == old(elems)
      ensures forall r :: r in queues ==> r.Elems == old(r.Elems)
    {
      e.prev, e.next := null, null;
      stale := stale - {e};
      forall r | r in queues
        ensures QueueOk(r)
      {
        assert old(QueueOk(r));
        assert forall i {:trigger r.Elems[i]} :: 0 <= i < |r.Elems| ==> r.Elems[i] in r.Elems;
      }
      forall r, s, x | r in queues && s in queues && x in elems
        ensures Apart(r, s, x)
      {
        assert old(Apart(r, s, x));
      }
      forall x | x in elems
        ensures ClearedOk(x)
      {
        assert old(ClearedOk(x));
      }
    }

    method InsertFront(q: Queue, e: Elem)
      requires Valid() && q in queues && e in elems && Free(e) && e !in stale
      modifies q, elems
      ensures Valid() && q.Elems == [e] + old(q.Elems)
      ensures forall r :: r in queues && r != q ==> r.Elems == old(r.Elems)
    {
      assert QueueOk(q) && ClearedOk(e);
      q.InsertFront(e);
      Rejoined(q, e);
    }

    method InsertTail(q: Queue, e: Elem)
      requires Valid() && q in queues && e in elems && Free(e) && e !in stale
      modifies q, elems
      ensures Valid() && q.Elems == old(q.Elems) + [e]
      ensures forall r :: r in queues && r != q ==> r.Elems == old(r.Elems)
    {
      assert QueueOk(q) && ClearedOk(e);
      q.InsertTail(e);
      Rejoined(q, e);
    }

    method Remove(q: Queue, e: Elem, ghost k: nat)
      requires Valid() && q in queues && k < |q.Elems| && q.Elems[k] == e
      modifies q, elems
      ensures Valid() && q.Elems == WithoutAt(old(q.Elems), k) && Free(e) && e !in stale
      ensures forall r :: r in queues && r != q ==> r.Elems == old(r.Elems)
    {
      ApartFrom(q);
      assert ClearedOk(e);
      ghost var xs := q.Elems;
      q.Remove(e, k);
      WithoutAtMembers(xs, k);
      Rejoined(q, e);
    }

    method Append(q: Queue, suffix: Queue)
      requires Valid() && q in queues && suffix in queues && q != suffix
      modifies q, suffix, elems
      ensures Valid() && q.Elems == old(q.Elems) + old(suffix.Elems) && suffix.Elems == []
      ensures forall r :: r in queues && r != q && r != suffix ==> r.Elems == old(r.Elems)
    {
      ApartFrom(q);
      ApartFrom(suffix);
      q.Append(suffix);
      Joined(q, suffix);
    }

    twostate lemma Joined(q: Queue, new suffix: Queue)
      requires old(Valid()) && unchanged(this) && q in queues && suffix in old(queues) && q != suffix && q.Valid()
               && suffix.Valid()
      requires forall r :: r in queues && r != q && r != suffix ==> unchanged(r)
      requires forall x :: x in elems && x !in old(q.Elems) && x !in old(suffix.Elems) ==> unchanged(x)
      requires q.Elems == old(q.Elems) + old(suffix.Elems) && suffix.Elems == []
      ensures Valid()
    {
      ApartFromOld(q);
      ApartFromOld(suffix);
      assert old(QueueOk(q)) && old(QueueOk(suffix));
      forall r | r in queues
        ensures QueueOk(r)
      {
        assert old(QueueOk(r));
        if r != q && r != suffix {
          assert r.Elems == old(r.Elems);
          forall x | x in r.Elems
            ensures unchanged(x)
          {
            assert x in elems && x !in old(q.Elems) && x !in old(suffix.Elems);
          }
          Untouched(r);
        }
      }
      forall r, s, x | r in queues && s in queues && x in elems
        ensures Apart(r, s, x)
      {
        assert old(Apart(r, s, x));
      }
      forall x | x in elems
        ensures ClearedOk(x)
      {
        assert old(ClearedOk(x));
      }
    }

    /** Insertion at the tail is undone by removal, on every other queue as well as on this one. */
    method InsertThenRemove(q: Queue, e: Elem)
      requires Valid() && q in queues && e in elems && Free(e) && e !in stale
      modifies q, elems
      ensures Valid() && forall r :: r in queues ==> r.Elems == old(r.Elems)
    {
      InsertTail(q, e);
      Remove(q, e, |q.Elems| - 1);
    }
  }
}
