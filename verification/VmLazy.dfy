/** Demand-zero pages against pages that get their frame at once: a program cannot tell them apart while
    frames last. */
module VmLazy {
  import opened PhysAlloc
  import opened PageTable
  import opened Vm
  import opened VmProofs
  import opened VmTheorems

  /** An address space whose pages have contents of their own from the start; there are no frames and no faults. */
  datatype EagerPage = EagerPage(content: Content, writable: bool, mark: Mark)

  type Eager = map<Page, EagerPage>

  predicate EagerAllocated(e: Eager, p: nat) {
    var q: Page := p % NUM_PAGES;
    if q < FIRST_PAGE then q != 0 else q in e
  }

  predicate EagerOverlaps(e: Eager, b: nat, n: nat) {
    exists q :: b <= q < n && EagerAllocated(e, q)
  }

  function EagerRunEnd(e: Eager, p: nat): nat
    requires p <= NUM_PAGES
    decreases NUM_PAGES - p
  {
    if p < NUM_PAGES && p in e && e[p].mark == Continue then EagerRunEnd(e, p + 1) else p
  }

  predicate InOneSpace(op: Op) {
    op.NewPages? || op.RemovePages? || op.Read? || op.Write?
  }

  /** `granted` says whether the kernel found the memory for a new_pages it need not refuse. */
  function EagerDo(e: Eager, op: Op, granted: bool): (Eager, Result)
    requires InOneSpace(op) && forall p :: p in e ==> |e[p].content| == PAGE_SIZE
  {
    match op
    case NewPages(base, len) =>
      if BadRange(base, len) || !granted then (e, Fail)
      else
        var b, n := base / PAGE_SIZE, base / PAGE_SIZE + len / PAGE_SIZE;
        if EagerOverlaps(e, b, n) || n > NUM_PAGES then (e, Fail)
        else (e + EagerZeros(b, n), Ok)
    case RemovePages(base) =>
      if base < USER_MEM_START || base % PAGE_SIZE != 0 || base / PAGE_SIZE >= NUM_PAGES
         || base / PAGE_SIZE !in e || e[base / PAGE_SIZE].mark != Base then (e, Fail)
      else
        var b := base / PAGE_SIZE;
        var n := EagerRunEnd(e, b + 1);
        (map p | p in e && !(b <= p < n) :: e[p], Ok)
    case Read(addr) =>
      var p := addr / PAGE_SIZE;
      (e, if p < NUM_PAGES && p in e then Value(e[p].content[addr % PAGE_SIZE]) else Fault)
    case Write(addr, v) =>
      var p := addr / PAGE_SIZE;
      if p < NUM_PAGES && p in e && e[p].writable then
        (e[p := e[p].(content := e[p].content[addr % PAGE_SIZE := v])], Ok)
      else (e, Fault)
  }

  ghost predicate Sized(e: Eager) {
    forall p :: p in e ==> |e[p].content| == PAGE_SIZE
  }

  /** It is a memory: what is written is read back, and nothing else changes; new pages read as 0. */
  lemma EagerIsMemory(e: Eager, addr: nat, v: Byte, other: nat)
    requires Sized(e) && EagerDo(e, Write(addr, v), true).1 == Ok
    ensures var e' := EagerDo(e, Write(addr, v), true).0;
            && Sized(e') && EagerDo(e', Read(addr), true).1 == Value(v)
            && (other != addr ==> EagerDo(e', Read(other), true).1 == EagerDo(e, Read(other), true).1)
  {
    if other != addr && other / PAGE_SIZE == addr / PAGE_SIZE {
      assert other % PAGE_SIZE != addr % PAGE_SIZE;
    }
  }

  lemma EagerNewIsZero(e: Eager, base: nat, len: int, addr: nat)
    requires Sized(e) && EagerDo(e, NewPages(base, len), true).1 == Ok && base <= addr < base + len
    ensures var e' := EagerDo(e, NewPages(base, len), true).0;
            Sized(e') && EagerDo(e', Read(addr), true).1 == Value(0)
  {
    var b, n := base / PAGE_SIZE, base / PAGE_SIZE + len / PAGE_SIZE;
    assert b <= addr / PAGE_SIZE < n;
  }

  // ------------------------------------------------------------------ what a program sees

  /** The current address space, with the pages on the zero frame writable and full of zeros. */
  function View(s: State): Eager
    requires s.cur in s.dirs
  {
    var d := s.dirs[s.cur];
    map p | p in d && d[p].frame in s.mem :: EagerPage(s.mem[d[p].frame], MayWrite(d[p]), d[p].mark)
  }

  lemma ViewIs(s: State)
    requires Inv(s)
    ensures s.cur in s.dirs && View(s).Keys == s.dirs[s.cur].Keys && Sized(View(s))
    ensures forall p :: p in s.dirs[s.cur] ==> s.dirs[s.cur][p].frame in s.mem
    ensures forall p :: p in s.dirs[s.cur] && s.dirs[s.cur][p].frame == ZERO_FRAME ==>
              View(s)[p].content == ZeroPage() && !s.dirs[s.cur][p].writable
  {
    var o: Owners :| InvAt(s, o);
    forall p | p in s.dirs[s.cur]
      ensures var f := s.dirs[s.cur][p].frame;
              && f in s.mem && |s.mem[f]| == PAGE_SIZE
              && (f == ZERO_FRAME ==> s.mem[f] == ZeroPage() && !s.dirs[s.cur][p].writable)
    {
      assert PteOk(s, o, s.cur, p) && MemOk(s, s.dirs[s.cur][p].frame);
    }
  }

  lemma OverlapsSame(s: State, b: nat, n: nat)
    requires s.cur in s.dirs && View(s).Keys == s.dirs[s.cur].Keys && !s.nullMapped
    ensures EagerOverlaps(View(s), b, n) == Overlaps(s.dirs[s.cur], false, b, n)
  {
    forall q
      ensures EagerAllocated(View(s), q) == Allocated(s.dirs[s.cur], false, q)
    {
    }
  }

  lemma {:induction false} RunEndSame(s: State, p: nat)
    requires s.cur in s.dirs && View(s).Keys == s.dirs[s.cur].Keys && p <= NUM_PAGES
    ensures EagerRunEnd(View(s), p) == RunEnd(s.dirs[s.cur], p)
    decreases NUM_PAGES - p
  {
    if p < NUM_PAGES && p in s.dirs[s.cur] && s.dirs[s.cur][p].mark == Continue {
      RunEndSame(s, p + 1);
    }
  }

  // ------------------------------------------------------------------ one step

  ghost predicate Matches(s: State, op: Op, s': State, r: Result)
    requires s.cur in s.dirs && s'.cur in s'.dirs && InOneSpace(op) && Sized(View(s))
  {
    EagerDo(View(s), op, r != Fail) == (View(s'), r)
  }

  function EagerZeros(b: nat, n: nat): Eager
    requires n <= NUM_PAGES
  {
    map p | p in Pages(b, n) :: EagerPage(ZeroPage(), true, if p == b then Base else Continue)
  }

  lemma ViewOfZeros(s: State, s': State, b: nat, n: nat)
    requires Inv(s) && s.cur in s.dirs && n <= NUM_PAGES && s'.cur in s'.dirs && s'.mem == s.mem
    requires s'.dirs[s'.cur] == s.dirs[s.cur] + ZeroRun(b, n)
    ensures View(s') == View(s) + EagerZeros(b, n)
  {
    ViewIs(s);
    var o: Owners :| InvAt(s, o);
    assert MemOk(s, ZERO_FRAME);
  }

  lemma EagerGrants(e: Eager, base: nat, len: int, b: nat, n: nat)
    requires Sized(e) && !BadRange(base, len) && b == base / PAGE_SIZE && n == b + len / PAGE_SIZE
    requires !EagerOverlaps(e, b, n) && n <= NUM_PAGES
    ensures EagerDo(e, NewPages(base, len), true) == (e + EagerZeros(b, n), Ok)
  {
  }

  lemma EagerRefuses(e: Eager, base: nat, len: int)
    requires Sized(e) && PastEnd(base, len)
    ensures EagerDo(e, NewPages(base, len), true).1 == Fail
  {
  }

  /** What a granted new_pages does to the current directory, when its range ends in user memory. */
  ghost predicate Grown(s: State, base: nat, len: int, b: nat, n: nat, s': State) {
    && s.cur in s.dirs && s'.cur in s'.dirs && b == base / PAGE_SIZE && n == b + len / PAGE_SIZE && n <= NUM_PAGES
    && !BadRange(base, len) && !Overlaps(s.dirs[s.cur], false, b, n)
    && s'.mem == s.mem && s'.dirs[s'.cur] == s.dirs[s.cur] + ZeroRun(b, n)
  }

  lemma GrantedGrows(s: State, base: nat, len: int, s': State)
    requires s.cur in s.dirs && !s.nullMapped && NewPagesStep(s, base, len, s', Ok) && !PastEnd(base, len)
    ensures Grown(s, base, len, base / PAGE_SIZE, base / PAGE_SIZE + len / PAGE_SIZE, s')
  {
    SameMemAfter(s, base, len, s');
    NewPagesRange(s, base, len, s');
  }

  lemma GrownMatches(s: State, base: nat, len: int, b: nat, n: nat, s': State)
    requires Inv(s) && !s.nullMapped && Grown(s, base, len, b, n, s')
    ensures Sized(View(s)) && Matches(s, NewPages(base, len), s', Ok)
  {
    ViewIs(s);
    OverlapsSame(s, b, n);
    ViewOfZeros(s, s', b, n);
    EagerGrants(View(s), base, len, b, n);
  }

  lemma GrantedMatches(s: State, base: nat, len: int, s': State)
    requires Inv(s) && !s.nullMapped && NewPagesStep(s, base, len, s', Ok)
    ensures s.cur in s.dirs && s'.cur in s'.dirs && Sized(View(s))
    ensures Matches(s, NewPages(base, len), s', Ok) <==> !PastEnd(base, len)
  {
    ViewIs(s);
    if PastEnd(base, len) {
      EagerRefuses(View(s), base, len);
    } else {
      GrantedGrows(s, base, len, s');
      GrownMatches(s, base, len, base / PAGE_SIZE, base / PAGE_SIZE + len / PAGE_SIZE, s');
    }
  }

  lemma SameMemAfter(s: State, base: nat, len: int, s': State)
    requires s.cur in s.dirs && NewPagesStep(s, base, len, s', Ok)
    ensures !BadRange(base, len) && s'.mem == s.mem
    ensures !Overlaps(s.dirs[s.cur], s.nullMapped, base / PAGE_SIZE, base / PAGE_SIZE + len / PAGE_SIZE)
  {
  }

  /** The range runs past the last page, onto page 0. */
  predicate PastEnd(base: nat, len: int) {
    base / PAGE_SIZE + len / PAGE_SIZE > NUM_PAGES
  }

  lemma NewPagesMatches(s: State, base: nat, len: int, s': State, r: Result)
    requires Inv(s) && !s.nullMapped && NewPagesStep(s, base, len, s', r)
    ensures s.cur in s.dirs && s'.cur in s'.dirs && Sized(View(s))
    ensures Matches(s, NewPages(base, len), s', r) <==> !(r == Ok && PastEnd(base, len))
    ensures !(r == Ok && PastEnd(base, len)) ==> !s'.nullMapped
  {
    ViewIs(s);
    if r == Ok {
      GrantedMatches(s, base, len, s');
    } else {
      assert View(s') == View(s);
    }
  }

  lemma RemovePagesMatches(s: State, base: nat, s': State, r: Result)
    requires Inv(s) && RemovePagesStep(s, base, s', r)
    ensures s.cur in s.dirs && s'.cur in s'.dirs && Sized(View(s)) && Matches(s, RemovePages(base), s', r)
  {
    ViewIs(s);
    if !RemoveRefused(s.dirs[s.cur], base) {
      RunEndSame(s, base / PAGE_SIZE + 1);
      assert View(s') == EagerDo(View(s), RemovePages(base), true).0;
    }
  }

  lemma DemandMatches(s: State, addr: nat, v: Byte, s': State, f: Frame)
    requires Inv(s) && s.cur in s.dirs && Demand(s, addr)
    requires Replaced(s, s', addr / PAGE_SIZE, f, ZeroPage()[addr % PAGE_SIZE := v])
    ensures s'.cur in s'.dirs && Sized(View(s)) && Matches(s, Write(addr, v), s', Ok)
  {
    ViewIs(s);
    var o: Owners :| InvAt(s, o);
    var p: Page := addr / PAGE_SIZE;
    forall q | q in s.dirs[s.cur]
      ensures q in View(s') && (q != p ==> View(s')[q] == View(s)[q])
    {
      assert PteOk(s, o, s.cur, q) && MemOk(s, s.dirs[s.cur][q].frame);
    }
    assert View(s') == EagerDo(View(s), Write(addr, v), true).0;
  }

  lemma StoreMatches(s: State, addr: nat, v: Byte, s': State)
    requires Inv(s) && s.cur in s.dirs && !Demand(s, addr)
    requires addr / PAGE_SIZE < NUM_PAGES && addr / PAGE_SIZE in s.dirs[s.cur]
             && s.dirs[s.cur][addr / PAGE_SIZE].writable
    requires WriteStep(s, addr, v, s', Ok)
    ensures s'.cur in s'.dirs && Sized(View(s)) && Matches(s, Write(addr, v), s', Ok)
  {
    ViewIs(s);
    var o: Owners :| InvAt(s, o);
    var p: Page := addr / PAGE_SIZE;
    assert PteOk(s, o, s.cur, p);
    forall q | q in s.dirs[s.cur] && q != p
      ensures q in View(s') && View(s')[q] == View(s)[q]
    {
      assert PteOk(s, o, s.cur, q);
    }
    assert View(s') == EagerDo(View(s), Write(addr, v), true).0;
  }

  lemma WriteMatches(s: State, addr: nat, v: Byte, s': State, r: Result)
    requires Inv(s) && WriteStep(s, addr, v, s', r)
    ensures s.cur in s.dirs && s'.cur in s'.dirs && Sized(View(s))
    ensures Matches(s, Write(addr, v), s', r) <==> !Exhausted(s, addr)
  {
    ViewIs(s);
    var d, p := s.dirs[s.cur], addr / PAGE_SIZE;
    if Exhausted(s, addr) {
      assert p in View(s) && View(s)[p].writable;
    } else if Demand(s, addr) {
      var c := ZeroPage()[addr % PAGE_SIZE := v];
      var f :| Replaced(s, s', p, f, c);
      DemandMatches(s, addr, v, s', f);
    } else if p < NUM_PAGES && p in d && d[p].writable {
      StoreMatches(s, addr, v, s');
    }
  }

  /** A write that needs a frame when none is left, or a new_pages that runs past the end of memory. */
  predicate Strays(s: State, op: Op, r: Result)
    requires s.cur in s.dirs
  {
    match op
    case Write(addr, _) => Exhausted(s, addr)
    case NewPages(base, len) => r == Ok && PastEnd(base, len)
    case _ => false
  }

  /** Each operation in an address space does what it would do with frames assigned at once, and gives the
      program the same answer, if and only if it is not a write that finds no frame left or a new_pages whose
      range runs past the last page. */
  lemma LazyRefinesEager(s: State, op: Op, s': State, r: Result)
    requires Inv(s) && !s.nullMapped && Next(s, op, s', r) && InOneSpace(op)
    ensures s.cur in s.dirs && s'.cur in s'.dirs && Sized(View(s))
    ensures EagerDo(View(s), op, r != Fail) == (View(s'), r) <==> !Strays(s, op, r)
    ensures !Strays(s, op, r) ==> !s'.nullMapped
  {
    ViewIs(s);
    match op
    case NewPages(base, len) => NewPagesMatches(s, base, len, s', r);
    case RemovePages(base) => RemovePagesMatches(s, base, s', r);
    case Read(addr) =>
    case Write(addr, v) => WriteMatches(s, addr, v, s', r);
  }

  // ------------------------------------------------------------------ whole runs

  ghost predicate FramesLast(s: State, run: seq<Event>)
    decreases |run|
  {
    run == [] || (s.cur in s.dirs && InOneSpace(run[0].op) && !Strays(s, run[0].op, run[0].result)
                  && FramesLast(run[0].after, run[1..]))
  }

  /** The answers of a program's operations with frames assigned at once. */
  function EagerAnswers(e: Eager, run: seq<Event>): seq<Result>
    requires Sized(e) && forall i :: 0 <= i < |run| ==> InOneSpace(run[i].op)
    decreases |run|
  {
    if run == [] then []
    else
      var (e', r) := EagerDo(e, run[0].op, run[0].result != Fail);
      SizedKept(e, run[0].op, run[0].result != Fail);
      [r] + EagerAnswers(e', run[1..])
  }

  lemma SizedKept(e: Eager, op: Op, granted: bool)
    requires Sized(e) && InOneSpace(op)
    ensures Sized(EagerDo(e, op, granted).0)
  {
  }

  function Answers(run: seq<Event>): seq<Result> {
    if run == [] then [] else [run[0].result] + Answers(run[1..])
  }

  lemma {:induction false} FramesLastOps(s: State, run: seq<Event>)
    requires FramesLast(s, run)
    ensures forall i :: 0 <= i < |run| ==> InOneSpace(run[i].op)
    decreases |run|
  {
    if run != [] {
      FramesLastOps(run[0].after, run[1..]);
      forall i | 0 <= i < |run|
        ensures InOneSpace(run[i].op)
      {
        assert i > 0 ==> run[i] == run[1..][i - 1];
      }
    }
  }

  /** While frames last and ranges end in user memory, every read, write, new_pages and remove_pages of a run answers as if each page had
      got a zeroed frame of its own when it was allocated. */
  lemma {:induction false} RunRefinesEager(s: State, run: seq<Event>)
    requires Inv(s) && !s.nullMapped && IsRun(s, run) && FramesLast(s, run)
    ensures s.cur in s.dirs && Sized(View(s)) && forall i :: 0 <= i < |run| ==> InOneSpace(run[i].op)
    ensures Answers(run) == EagerAnswers(View(s), run)
    decreases |run|
  {
    ViewIs(s);
    FramesLastOps(s, run);
    if run != [] {
      LazyRefinesEager(s, run[0].op, run[0].after, run[0].result);
      NextKeeps(s, run[0].op, run[0].after, run[0].result);
      RunRefinesEager(run[0].after, run[1..]);
    }
  }
}
