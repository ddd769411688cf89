/** The physical frame allocator (p3/kern/lib_memory_management/physalloc.c): a bump pointer and a stack of
    frames to use again.  A frame is named by its number, the address shifted by PAGE_SHIFT. */
module PhysAlloc {
  import opened Seqs

  type Frame = nat

  /** The frame at USER_MEM_START, shared by all pages nobody wrote to. */
  const ZERO_FRAME: Frame := 4096
  const FIRST_FRAME: Frame := 4097
  /** Entries of the first stack: PAGE_SIZE / sizeof(uint32_t). */
  const STACK_LEN: nat := 1024

  /** `next` is max_free_address, `limit` machine_phys_frames(); `lost` is history: the frames dropped
      because the stack could not grow. */
  datatype Alloc = Alloc(next: Frame, limit: Frame, stack: seq<Frame>, len: nat, lost: set<Frame>)

  function Below(lo: nat, hi: nat): (r: set<Frame>)
    ensures forall f :: f in r <==> lo <= f < hi
    decreases hi
  {
    if lo >= hi then {} else Below(lo, hi - 1) + {hi - 1}
  }

  function Elements(xs: seq<Frame>): set<Frame> {
    set f | f in xs
  }

  /** What the allocator knows: the stack has frames it gave out before, each once. */
  ghost predicate Valid(a: Alloc) {
    && FIRST_FRAME <= a.next <= a.limit
    && |a.stack| <= a.len && 0 < a.len
    && NoDup(a.stack)
    && (forall f :: f in a.stack ==> FIRST_FRAME <= f < a.next && f !in a.lost)
    && (forall f :: f in a.lost ==> FIRST_FRAME <= f < a.next)
  }

  /** The frames physalloc can still give out. */
  function Free(a: Alloc): set<Frame> {
    Elements(a.stack) + Below(a.next, a.limit)
  }

  /** Frames in use: given out, and neither given back nor lost. */
  function Used(a: Alloc): set<Frame> {
    Below(FIRST_FRAME, a.next) - Elements(a.stack) - a.lost
  }

  function NumFree(a: Alloc): int {
    a.limit - a.next + |a.stack|
  }

  /** physalloc; None is its 0. */
  function Take(a: Alloc): (Option<Frame>, Alloc) {
    if a.stack != [] then (Some(a.stack[|a.stack| - 1]), a.(stack := a.stack[..|a.stack| - 1]))
    else if a.next == a.limit then (None, a)
    else (Some(a.next), a.(next := a.next + 1))
  }

  /** physfree; `room` says whether smalloc finds memory for a larger stack. */
  function Put(a: Alloc, f: Frame, room: bool): Alloc {
    if |a.stack| < a.len then a.(stack := a.stack + [f])
    else if room then a.(stack := a.stack + [f], len := a.len * 2)
    else a.(lost := a.lost + {f})
  }

  // ------------------------------------------------------------------ what they mean

  /** physalloc gives out a frame that was free, or says that none is; no other frame changes hands. */
  lemma TakeIs(a: Alloc)
    requires Valid(a)
    ensures Valid(Take(a).1) && Take(a).1.limit == a.limit && Take(a).1.lost == a.lost
    ensures match Take(a).0
            case None => Free(a) == {} && Take(a).1 == a
            case Some(f) =>
              && f in Free(a) && FIRST_FRAME <= f < a.limit
              && Free(Take(a).1) == Free(a) - {f} && Used(Take(a).1) == Used(a) + {f} && f !in Used(a)
  {
    if a.stack != [] {
      var xs, x := a.stack[..|a.stack| - 1], a.stack[|a.stack| - 1];
      assert a.stack == xs + [x];
      NoDupPrefix(xs, x);
      assert forall f :: f in a.stack <==> f in xs || f == x;
      assert Elements(a.stack) == Elements(xs) + {x};
    } else {
      assert Elements(a.stack) == {};
    }
  }

  /** physfree gives back a frame in use: it is free again, or lost for good. */
  lemma PutIs(a: Alloc, f: Frame, room: bool)
    requires Valid(a) && f in Used(a)
    ensures Valid(Put(a, f, room)) && Put(a, f, room).limit == a.limit && Put(a, f, room).next == a.next
    ensures Used(Put(a, f, room)) == Used(a) - {f}
    ensures if |a.stack| < a.len || room
            then Free(Put(a, f, room)) == Free(a) + {f} && Put(a, f, room).lost == a.lost
            else Free(Put(a, f, room)) == Free(a) && Put(a, f, room).lost == a.lost + {f}
  {
    var b := Put(a, f, room);
    NoDupAppend(a.stack, f);
    assert forall g :: g in a.stack + [f] <==> g in a.stack || g == f;
    assert Elements(a.stack + [f]) == Elements(a.stack) + {f};
  }

  lemma {:induction false} BelowSize(lo: nat, hi: nat)
    requires lo <= hi
    ensures |Below(lo, hi)| == hi - lo
  {
    if lo == hi {
      assert Below(lo, hi) == {};
    } else {
      BelowSize(lo, hi - 1);
      assert Below(lo, hi) == Below(lo, hi - 1) + {hi - 1};
    }
  }

  lemma {:induction false} ElementsSize(xs: seq<Frame>)
    requires NoDup(xs)
    ensures |Elements(xs)| == |xs|
  {
    if xs == [] {
      assert Elements(xs) == {};
    } else {
      ElementsSize(xs[1..]);
      assert Elements(xs) == Elements(xs[1..]) + {xs[0]};
    }
  }

  lemma FreeSize(a: Alloc)
    requires Valid(a)
    ensures NumFree(a) == |Free(a)|
  {
    BelowSize(a.next, a.limit);
    ElementsSize(a.stack);
    assert Elements(a.stack) !! Below(a.next, a.limit);
  }

  lemma Split(a: Alloc)
    requires Valid(a)
    ensures Used(a) !! Free(a) && Used(a) !! a.lost && Free(a) !! a.lost
    ensures Used(a) + Free(a) + a.lost == Below(FIRST_FRAME, a.limit)
  {
  }

  /** Frames are conserved: free, in use and lost ones add up to the machine's user frames. */
  lemma Conserved(a: Alloc)
    requires Valid(a)
    ensures NumFree(a) == |Free(a)|
    ensures |Used(a)| + NumFree(a) + |a.lost| == a.limit - FIRST_FRAME
    ensures Used(a) !! Free(a) && Used(a) !! a.lost && Free(a) !! a.lost
    ensures Used(a) + Free(a) + a.lost == Below(FIRST_FRAME, a.limit)
  {
    FreeSize(a);
    Split(a);
    BelowSize(FIRST_FRAME, a.limit);
    var u, e, l := Used(a), Free(a), a.lost;
    assert |u + e| == |u| + |e|;
    assert |(u + e) + l| == |u + e| + |l|;
  }

  // ------------------------------------------------------------------ the code

  class Allocator {
    var maxFree: Frame
    const machineFrames: Frame
    var data: array<Frame>
    var top: nat
    ghost var lost: set<Frame>

    ghost predicate Inv()
      reads this, data
    {
      top <= data.Length && Valid(View())
    }

    ghost function View(): Alloc
      requires top <= data.Length
      reads this, data
    {
      Alloc(maxFree, machineFrames, data[..top], data.Length, lost)
    }

    /** init_physalloc */
    constructor (machineFrames: Frame)
      requires FIRST_FRAME <= machineFrames
      ensures Inv() && fresh(data)
      ensures View() == Alloc(FIRST_FRAME, machineFrames, [], STACK_LEN, {})
    {
      this.machineFrames := machineFrames;
      maxFree := FIRST_FRAME;
      data := new Frame[STACK_LEN];
      top := 0;
      lost := {};
    }

    /** is_physframe accepts every frame given out so far and, since it compares with <=, the next one. */
    method IsPhysframe(f: Frame) returns (ok: bool)
      requires Inv()
      ensures ok <==> f in Used(View()) || f in data[..top] || f in lost || f == maxFree
    {
      ok := ZERO_FRAME < f <= maxFree;
    }

    method NumFreePhysFrames() returns (n: nat)
      requires Inv()
      ensures n == |Free(View())|
    {
      Conserved(View());
      n := machineFrames - maxFree + top;
    }

    method Physalloc() returns (f: Option<Frame>)
      requires Inv()
      modifies this
      ensures Inv() && data == old(data)
      ensures (f, View()) == Take(old(View()))
    {
      ghost var a := View();
      TakeIs(a);
      if top > 0 {
        top := top - 1;
        assert a.stack[..top] == data[..top];
        return Some(data[top]);
      }
      if machineFrames == maxFree {
        return None;
      }
      maxFree := maxFree + 1;
      return Some(maxFree - 1);
    }

    /** `room` is whether smalloc succeeds. */
    method Physfree(f: Frame, room: bool)
      requires Inv() && f in Used(View())
      modifies this, data
      ensures Inv() && (data == old(data) || fresh(data))
      ensures View() == Put(old(View()), f, room)
    {
      ghost var a := View();
      PutIs(a, f, room);
      if top >= data.Length {
        assert top == data.Length;
        if !room {
          lost := lost + {f};
          return;
        }
        var oldData := data;
        var n := oldData.Length;
        var newData := new Frame[n * 2];
        var i := 0;
        while i < n
          invariant 0 <= i <= n
          invariant newData[..i] == oldData[..i]
          invariant unchanged(this) && oldData[..] == old(data[..])
        {
          newData[i] := oldData[i];
          i := i + 1;
        }
        data := newData;
        assert data[..top] == oldData[..top] == a.stack;
      }
      data[top] := f;
      top := top + 1;
      assert data[..top] == a.stack + [f];
    }
  }
}
