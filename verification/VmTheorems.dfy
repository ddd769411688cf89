/** What holds of address spaces over every run. */
module VmTheorems {
  import opened PhysAlloc
  import opened PageTable
  import opened Vm
  import opened VmProofs

  // ------------------------------------------------------------------ runs

  datatype Event = Event(op: Op, result: Result, after: State)

  /** A run: each event is a step from the state before it. */
  ghost predicate IsRun(s: State, run: seq<Event>)
    decreases |run|
  {
    run == [] || (Next(s, run[0].op, run[0].after, run[0].result) && IsRun(run[0].after, run[1..]))
  }

  function Final(s: State, run: seq<Event>): State {
    if run == [] then s else run[|run| - 1].after
  }

  /** Whatever the operations and whether or not frames run out, a run goes from Inv to Inv; the machine's
      frames stay the same. */
  lemma {:induction false} RunInv(s: State, run: seq<Event>)
    requires Inv(s) && IsRun(s, run)
    ensures Inv(Final(s, run)) && Final(s, run).alloc.limit == s.alloc.limit
    decreases |run|
  {
    if run != [] {
      NextKeeps(s, run[0].op, run[0].after, run[0].result);
      RunInv(run[0].after, run[1..]);
    }
  }

  /** No write of the run unmaps the middle of a run of pages for want of a frame. */
  ghost predicate NoBreak(s: State, run: seq<Event>)
    decreases |run|
  {
    run == [] || (!Breaks(s, run[0].op) && NoBreak(run[0].after, run[1..]))
  }

  lemma {:induction false} RunsStayWhole(s: State, run: seq<Event>)
    requires AllRuns(s) && IsRun(s, run) && NoBreak(s, run)
    ensures AllRuns(Final(s, run))
    decreases |run|
  {
    if run != [] {
      RunsKeptIff(s, run[0].op, run[0].after, run[0].result);
      RunsStayWhole(run[0].after, run[1..]);
    }
  }

  /** A machine with one empty address space and no frame given out. */
  ghost predicate Boots(s: State, d: DirId, limit: Frame) {
    && FIRST_FRAME <= limit
    && s == State(map[d := map[]], map[d := {}], d, {}, s.mem,
                  Alloc(FIRST_FRAME, limit, [], STACK_LEN, {}), false)
    && (forall f {:trigger MemOk(s, f)} :: MemOk(s, f))
  }

  lemma BootInv(s: State, d: DirId, limit: Frame)
    requires Boots(s, d, limit)
    ensures Inv(s) && AllRuns(s)
  {
    var o: Owners := map[];
    assert Used(s.alloc) == {} && Walk(map[]) == {};
    forall e, p
      ensures PteOk(s, o, e, p)
    {
    }
    forall f
      ensures OwnerOk(s, o, f)
    {
    }
    forall e
      ensures DirOk(s, e)
    {
      forall p: Page | e in s.dirs
        ensures RunOk(s.dirs[e], p)
      {
      }
    }
    assert InvAt(s, o);
  }

  // ------------------------------------------------------------------ frames

  ghost predicate Maps(s: State, d: DirId, p: Page, f: Frame) {
    d in s.dirs && p in s.dirs[d] && s.dirs[d][p].frame == f
  }

  /** The frames some page of some directory is on, the zero frame aside. */
  ghost function MappedFrames(s: State): set<Frame> {
    set f | f in Below(FIRST_FRAME, s.alloc.limit) && exists d, p :: Maps(s, d, p, f)
  }

  /** A frame other than the zero frame is mapped at one place at most, and never free or lost. */
  lemma OneOwner(s: State, f: Frame, d: DirId, p: Page, e: DirId, q: Page)
    requires Inv(s) && f != ZERO_FRAME && Maps(s, d, p, f) && Maps(s, e, q, f)
    ensures d == e && p == q && f !in Free(s.alloc) && f !in s.alloc.lost
  {
    var o: Owners :| InvAt(s, o);
    assert PteOk(s, o, d, p) && PteOk(s, o, e, q);
  }

  /** The zero frame is never mapped writable, and holds zeros. */
  lemma ZeroFrameSafe(s: State, d: DirId, p: Page)
    requires Inv(s)
    ensures Maps(s, d, p, ZERO_FRAME) ==> !s.dirs[d][p].writable
    ensures ZERO_FRAME in s.mem && s.mem[ZERO_FRAME] == ZeroPage()
  {
    var o: Owners :| InvAt(s, o);
    assert PteOk(s, o, d, p) && MemOk(s, ZERO_FRAME);
  }

  lemma MappedIsUsed(s: State, o: Owners, f: Frame)
    requires InvAt(s, o)
    ensures f in MappedFrames(s) <==> f in Used(s.alloc)
  {
    assert OwnerOk(s, o, f);
    assert f in o ==> Maps(s, o[f].0, o[f].1, f);
    forall d, p | Maps(s, d, p, f) && f != ZERO_FRAME
      ensures f in o
    {
      assert PteOk(s, o, d, p);
    }
  }

  /** Frames in use are the mapped ones, and with the free and the lost ones they make up the machine. */
  lemma FramesConserved(s: State)
    requires Inv(s)
    ensures MappedFrames(s) == Used(s.alloc)
    ensures |MappedFrames(s)| + NumFree(s.alloc) + |s.alloc.lost| == s.alloc.limit - FIRST_FRAME
  {
    var o: Owners :| InvAt(s, o);
    forall f
      ensures f in MappedFrames(s) <==> f in Used(s.alloc)
    {
      MappedIsUsed(s, o, f);
    }
    Conserved(s.alloc);
  }

  /** is_valid_pd's demands on user entries: they map the zero frame or a frame physalloc may have given out. */
  lemma DirectoriesValid(s: State, d: DirId, p: Page)
    requires Inv(s) && d in s.dirs && p in s.dirs[d]
    ensures var pte := s.dirs[d][p];
            EntryOk(Entry(pte.frame, true, pte.writable, true, false, pte.mark), PdIndex(p), s.alloc.next)
            && PdIndex(p) >= NUM_KERN_PAGE_TABLES
  {
    var o: Owners :| InvAt(s, o);
    assert PteOk(s, o, d, p);
  }

  /** The page tables of `pd` hold the user pages of d, and page 0 if that is mapped. */
  ghost predicate Represents(pd: PageDir, d: Dir, nullMapped: bool)
    requires pd.Shape()
    reads pd, pd.tables, pd.Repr()
  {
    && pd.EntryAt(0) == (if nullMapped then Entry(ZERO_FRAME, true, false, true, false, Continue) else Empty)
    && forall p: Page :: FIRST_PAGE <= p ==>
         pd.EntryAt(p) == if p in d then Entry(d[p].frame, true, d[p].writable, true, false, d[p].mark) else Empty
  }

  /** Tables that hold a reachable address space beside valid kernel tables pass is_valid_pd, if and only if
      no new_pages has run past the last page onto page 0. */
  lemma TablesValidIff(pd: PageDir, s: State, d: DirId)
    requires Inv(s) && d in s.dirs && pd.Shape() && Represents(pd, s.dirs[d], s.nullMapped)
    requires forall p: Page :: 0 < p < FIRST_PAGE ==> EntryOk(pd.EntryAt(p), PdIndex(p), s.alloc.next)
    ensures (forall p: Page :: EntryOk(pd.EntryAt(p), PdIndex(p), s.alloc.next)) <==> !s.nullMapped
  {
    forall p: Page | p > 0
      ensures EntryOk(pd.EntryAt(p), PdIndex(p), s.alloc.next)
    {
      if p in s.dirs[d] {
        DirectoriesValid(s, d, p);
      }
    }
    assert EntryOk(pd.EntryAt(0), PdIndex(0), s.alloc.next) <==> !s.nullMapped;
  }

  /** The call that does so is a new_pages whose range ends exactly one page past the last. */
  lemma NullMappedIff(s: State, op: Op, s': State, r: Result)
    requires Next(s, op, s', r) && !s.nullMapped
    ensures s'.nullMapped <==> op.NewPages? && r == Ok && op.base + op.len == (NUM_PAGES + 1) * PAGE_SIZE
  {
    if op.NewPages? && r == Ok {
      var b, n := op.base / PAGE_SIZE, op.len / PAGE_SIZE;
      if b + n > NUM_PAGES + 1 {
        WrapRefused(s.dirs[s.cur], false, b, n);
      }
    }
  }

  /** Such a call is granted whenever the pages before it are free. */
  lemma NullIsMapped(s: State, d: DirId, limit: Frame) returns (s': State)
    requires Boots(s, d, limit) && limit >= FIRST_FRAME + 2
    ensures Next(s, NewPages((NUM_PAGES - 1) * PAGE_SIZE, 2 * PAGE_SIZE), s', Ok) && s'.nullMapped
  {
    var dir := ZeroRun(NUM_PAGES - 1, NUM_PAGES);
    s' := s.(dirs := map[d := dir], tables := map[d := {PdIndex(NUM_PAGES - 1)}], tlb := Walk(dir), nullMapped := true);
    assert s.dirs[d := dir] == s'.dirs && map[] + dir == dir;
    assert s.tables[d := s'.tables[d]] == s'.tables;
    assert Used(s.alloc) == {};
    forall q | NUM_PAGES - 1 <= q < NUM_PAGES + 1
      ensures !Allocated(s.dirs[d], false, q)
    {
    }
  }

  // ------------------------------------------------------------------ the translation cache

  /** No cached user translation differs from a walk of the current directory. */
  lemma CacheCoherent(s: State, c: Cached)
    requires Inv(s) && c in s.tlb
    ensures c.page in s.dirs[s.cur]
    ensures s.dirs[s.cur][c.page].frame == c.frame && s.dirs[s.cur][c.page].writable == c.writable
  {
    var o: Owners :| InvAt(s, o);
  }

  // ------------------------------------------------------------------ runs of pages

  /** [b, e) is a run new_pages made: marked base first, continued to its end, not continued after it. */
  ghost predicate IsRunOfPages(d: Dir, b: nat, e: nat) {
    && FIRST_PAGE <= b < e <= NUM_PAGES
    && b in d && d[b].mark == Base
    && (forall q: Page :: b < q < e ==> q in d && d[q].mark == Continue)
    && (e < NUM_PAGES && e in d ==> d[e].mark != Continue)
  }

  lemma {:induction false} RunEndIs(d: Dir, p: nat, e: nat)
    requires p <= e <= NUM_PAGES
    requires forall q: Page :: p <= q < e ==> q in d && d[q].mark == Continue
    requires e < NUM_PAGES && e in d ==> d[e].mark != Continue
    ensures RunEnd(d, p) == e
    decreases e - p
  {
    if p < e {
      RunEndIs(d, p + 1, e);
    }
  }

  /** Pages added in a gap are a run if and only if the page behind them continues nothing. */
  lemma ZeroRunIsRun(d: Dir, b: nat, e: nat)
    requires FIRST_PAGE <= b < e <= NUM_PAGES && forall p: Page :: b <= p < e ==> p !in d
    ensures IsRunOfPages(d + ZeroRun(b, e), b, e) <==> !(e < NUM_PAGES && e in d && d[e].mark == Continue)
    ensures WithoutPages(d + ZeroRun(b, e), b, e) == d
    ensures FramesIn(d + ZeroRun(b, e), b, e) == {}
  {
    var d' := d + ZeroRun(b, e);
    assert e < NUM_PAGES ==> (e in d' <==> e in d);
    assert b in d' && d'[b].mark == Base;
  }

  lemma NewPagesRange(s: State, base: nat, len: int, s': State)
    requires s.cur in s.dirs && NewPagesStep(s, base, len, s', Ok)
    ensures var b, e := base / PAGE_SIZE, base / PAGE_SIZE + len / PAGE_SIZE;
            && base == b * PAGE_SIZE && base + len == e * PAGE_SIZE && FIRST_PAGE <= b < Within(e)
            && (forall p: Page :: b <= p < e ==> p !in s.dirs[s.cur])
            && s'.dirs == s.dirs[s.cur := s.dirs[s.cur] + ZeroRun(b, Within(e))] && s'.cur == s.cur
            && Used(s'.alloc) == Used(s.alloc) && s'.nullMapped == (s.nullMapped || e > NUM_PAGES)
  {
    var b, e := base / PAGE_SIZE, base / PAGE_SIZE + len / PAGE_SIZE;
    RangeClear(s.dirs[s.cur], s.nullMapped, b, e);
  }

  /** The run is there, and without it every page and frame is as before. */
  ghost predicate MadeRun(s: State, b: nat, e: nat, s': State) {
    && e <= NUM_PAGES && s.cur in s.dirs && s'.cur == s.cur && s.cur in s'.dirs
    && IsRunOfPages(s'.dirs[s.cur], b, e)
    && s.dirs == s'.dirs[s.cur := WithoutPages(s'.dirs[s.cur], b, e)]
    && FramesIn(s'.dirs[s.cur], b, e) == {}
    && Used(s'.alloc) == Used(s.alloc)
  }

  /** A new_pages that is granted makes a run of its pages, and changes no other page, if and only if the page
      behind them does not continue a run that is not there. */
  lemma NewPagesMakesRunIff(s: State, base: nat, len: int, s': State) returns (b: nat, e: nat)
    requires s.cur in s.dirs && NewPagesStep(s, base, len, s', Ok)
    ensures base == b * PAGE_SIZE && e == Within((base + len) / PAGE_SIZE)
    ensures MadeRun(s, b, e, s') <==> !(e < NUM_PAGES && e in s.dirs[s.cur] && s.dirs[s.cur][e].mark == Continue)
  {
    b, e := base / PAGE_SIZE, Within(base / PAGE_SIZE + len / PAGE_SIZE);
    NewPagesRange(s, base, len, s');
    ZeroRunIsRun(s.dirs[s.cur], b, e);
    assert s.dirs == s'.dirs[s.cur := s.dirs[s.cur]];
  }

  /** Where runs are whole that is always so, whatever lies beside the range. */
  lemma NewPagesMakesRun(s: State, base: nat, len: int, s': State) returns (b: nat, e: nat)
    requires s.cur in s.dirs && RunsOk(s.dirs[s.cur]) && NewPagesStep(s, base, len, s', Ok)
    ensures base == b * PAGE_SIZE && e == Within((base + len) / PAGE_SIZE) && MadeRun(s, b, e, s')
  {
    b, e := NewPagesMakesRunIff(s, base, len, s');
    NewPagesRange(s, base, len, s');
    var last: Page := e - 1;
    assert last !in s.dirs[s.cur];
    if e < NUM_PAGES {
      assert RunOk(s.dirs[s.cur], e);
    }
  }

  /** remove_pages of the base of a run unmaps exactly the run and gives back exactly its frames. */
  lemma RemovePagesUnmapsRun(s: State, b: nat, e: nat, s': State, r: Result)
    requires s.cur in s.dirs && IsRunOfPages(s.dirs[s.cur], b, e) && RemovePagesStep(s, b * PAGE_SIZE, s', r)
    ensures r == Ok
    ensures s'.dirs == s.dirs[s.cur := WithoutPages(s.dirs[s.cur], b, e)]
            && s'.tlb == Walk(WithoutPages(s.dirs[s.cur], b, e))
    ensures Used(s'.alloc) == Used(s.alloc) - FramesIn(s.dirs[s.cur], b, e)
    ensures s'.nullMapped == (s.nullMapped && e != NUM_PAGES)
  {
    RunEndIs(s.dirs[s.cur], b + 1, e);
  }

  /** The round trip: every page, every frame and every cached translation is as it was.  Page 0 is, too, unless
      it was mapped before and comes right after the range. */
  lemma NewThenRemove(s: State, base: nat, len: int, s1: State, s2: State, r: Result)
    requires Inv(s) && RunsOk(s.dirs[s.cur]) && NewPagesStep(s, base, len, s1, Ok) && RemovePagesStep(s1, base, s2, r)
    ensures r == Ok && s2.dirs == s.dirs && Used(s2.alloc) == Used(s.alloc) && s2.tlb == s.tlb
    ensures s2.nullMapped == s.nullMapped <==> !(s.nullMapped && base + len == NUM_PAGES * PAGE_SIZE)
  {
    var b, e := NewPagesMakesRun(s, base, len, s1);
    NewPagesRange(s, base, len, s1);
    RemovePagesUnmapsRun(s1, b, e, s2, r);
    WrapUnmapped(s, base, len, s1);
  }

  lemma WrapUnmapped(s: State, base: nat, len: int, s1: State)
    requires s.cur in s.dirs && NewPagesStep(s, base, len, s1, Ok)
    ensures base / PAGE_SIZE + len / PAGE_SIZE > NUM_PAGES ==> !s.nullMapped
  {
    assert s.nullMapped ==> Allocated(s.dirs[s.cur], s.nullMapped, NUM_PAGES);
  }

  /** Everything but remove_pages of its base, a write into it that finds no frame, and the end of its directory
      leaves the run [b, e) of directory d alone. */
  ghost predicate SparesRun(s: State, op: Op, d: DirId, b: nat, e: nat) {
    match op
    case RemovePages(base) => !(s.cur == d && base == b * PAGE_SIZE)
    case Write(addr, _) => !(s.cur == d && s.cur in s.dirs && Exhausted(s, addr) && b <= addr / PAGE_SIZE < e)
    case FreeDir(x) => x != d
    case _ => true
  }

  lemma RemoveSpares(s: State, base: nat, s': State, r: Result, b: nat, e: nat)
    requires s.cur in s.dirs && RemovePagesStep(s, base, s', r)
    requires IsRunOfPages(s.dirs[s.cur], b, e) && base != b * PAGE_SIZE
    ensures s.cur in s'.dirs && IsRunOfPages(s'.dirs[s.cur], b, e)
  {
    var d := s.dirs[s.cur];
    if !RemoveRefused(d, base) {
      var x := base / PAGE_SIZE;
      assert base == x * PAGE_SIZE;
      var y := RunEnd(d, x + 1);
      // another base is outside the run, and its own run stops short of this one
      assert !(b <= x < e);
      assert x < b ==> y <= b;
    }
  }

  /** Pages mapped beside a run leave it a run: the first of them is the base of another. */
  lemma RunBeside(d: Dir, b: nat, e: nat, x: nat, y: nat)
    requires IsRunOfPages(d, b, e) && x < y <= NUM_PAGES && forall p: Page :: x <= p < y ==> p !in d
    ensures IsRunOfPages(d + ZeroRun(x, y), b, e)
  {
    var d' := d + ZeroRun(x, y);
    var last: Page := e - 1;
    assert last in d;
    forall q: Page | b <= q < e
      ensures q in d' && d'[q] == d[q]
    {
    }
  }

  lemma NewSpares(s: State, base: nat, len: int, s': State, r: Result, b: nat, e: nat)
    requires s.cur in s.dirs && NewPagesStep(s, base, len, s', r) && IsRunOfPages(s.dirs[s.cur], b, e)
    ensures s.cur in s'.dirs && IsRunOfPages(s'.dirs[s.cur], b, e)
  {
    if s' != s && r == Ok {
      NewPagesRange(s, base, len, s');
      RunBeside(s.dirs[s.cur], b, e, base / PAGE_SIZE, Within(base / PAGE_SIZE + len / PAGE_SIZE));
    }
  }

  lemma WriteSpares(s: State, addr: nat, v: Byte, s': State, r: Result, b: nat, e: nat)
    requires s.cur in s.dirs && WriteStep(s, addr, v, s', r) && IsRunOfPages(s.dirs[s.cur], b, e)
    requires !(Exhausted(s, addr) && b <= addr / PAGE_SIZE < e)
    ensures s.cur in s'.dirs && IsRunOfPages(s'.dirs[s.cur], b, e)
  {
    if Demand(s, addr) && !Exhausted(s, addr) {
      var f :| Replaced(s, s', addr / PAGE_SIZE, f, ZeroPage()[addr % PAGE_SIZE := v]);
    }
  }

  lemma AllocateSpares(s: State, d: DirId, p: Page, w: bool, s': State, r: Result, b: nat, e: nat)
    requires s.cur in s.dirs && AllocateFrameStep(s, d, p, w, s', r) && IsRunOfPages(s.dirs[d], b, e)
    ensures d in s'.dirs && IsRunOfPages(s'.dirs[d], b, e)
  {
    if s' != s {
      var f :| f in Free(s.alloc) && Frames(s.alloc, s'.alloc, {f}, {})
               && OnlyDir(s, s', d, s.dirs[d][p := Pte(f, w, Plain)]) && PdIndex(p) in s'.tables[d];
    }
  }

  /** A run stays a run until then: pages mapped and unmapped beside it, reads, writes with their faults, forks
      and other address spaces do not change it, and neither do frames that run out elsewhere. */
  lemma RunKept(s: State, op: Op, s': State, r: Result, d: DirId, b: nat, e: nat)
    requires Next(s, op, s', r) && d in s.dirs && IsRunOfPages(s.dirs[d], b, e) && SparesRun(s, op, d, b, e)
    ensures d in s'.dirs && IsRunOfPages(s'.dirs[d], b, e)
  {
    if s.cur == d && op.NewPages? {
      NewSpares(s, op.base, op.len, s', r, b, e);
    } else if s.cur == d && op.RemovePages? {
      RemoveSpares(s, op.base, s', r, b, e);
    } else if s.cur == d && op.Write? {
      WriteSpares(s, op.addr, op.v, s', r, b, e);
    } else if op.AllocateFrame? && op.d == d {
      AllocateSpares(s, d, op.p, op.writable, s', r, b, e);
    } else {
      OtherKept(s, op, s', r, d);
    }
  }

  /** An operation that is none of these leaves directory d as it is. */
  lemma OtherKept(s: State, op: Op, s': State, r: Result, d: DirId)
    requires Next(s, op, s', r) && d in s.dirs && op != FreeDir(d) && !(op.AllocateFrame? && op.d == d)
    requires s.cur == d ==> !op.NewPages? && !op.RemovePages? && !op.Write?
    ensures d in s'.dirs && s'.dirs[d] == s.dirs[d]
  {
    match op
    case NewPages(base, len) => NewPagesElsewhere(s, base, len, s', r, d);
    case RemovePages(base) => RemovePagesElsewhere(s, base, s', r, d);
    case Write(addr, v) => WriteElsewhere(s, addr, v, s', r, d);
    case AllocateFrame(x, p, w) => AllocateElsewhere(s, x, p, w, s', r, d);
    case _ =>
  }

  lemma NewPagesElsewhere(s: State, base: nat, len: int, s': State, r: Result, d: DirId)
    requires s.cur in s.dirs && NewPagesStep(s, base, len, s', r) && d in s.dirs && d != s.cur
    ensures d in s'.dirs && s'.dirs[d] == s.dirs[d]
  {
  }

  lemma RemovePagesElsewhere(s: State, base: nat, s': State, r: Result, d: DirId)
    requires s.cur in s.dirs && RemovePagesStep(s, base, s', r) && d in s.dirs && d != s.cur
    ensures d in s'.dirs && s'.dirs[d] == s.dirs[d]
  {
  }

  lemma WriteElsewhere(s: State, addr: nat, v: Byte, s': State, r: Result, d: DirId)
    requires s.cur in s.dirs && WriteStep(s, addr, v, s', r) && d in s.dirs && d != s.cur
    ensures d in s'.dirs && s'.dirs[d] == s.dirs[d]
  {
  }

  lemma AllocateElsewhere(s: State, x: DirId, p: Page, w: bool, s': State, r: Result, d: DirId)
    requires s.cur in s.dirs && AllocateFrameStep(s, x, p, w, s', r) && d in s.dirs && d != x
    ensures d in s'.dirs && s'.dirs[d] == s.dirs[d]
  {
  }

  ghost predicate Spared(s: State, run: seq<Event>, d: DirId, b: nat, e: nat)
    decreases |run|
  {
    run == [] || (SparesRun(s, run[0].op, d, b, e) && Spared(run[0].after, run[1..], d, b, e))
  }

  lemma {:induction false} RunKeptThroughout(s: State, run: seq<Event>, d: DirId, b: nat, e: nat)
    requires d in s.dirs && IsRunOfPages(s.dirs[d], b, e) && IsRun(s, run) && Spared(s, run, d, b, e)
    ensures d in Final(s, run).dirs && IsRunOfPages(Final(s, run).dirs[d], b, e)
    decreases |run|
  {
    if run != [] {
      RunKept(s, run[0].op, run[0].after, run[0].result, d, b, e);
      RunKeptThroughout(run[0].after, run[1..], d, b, e);
      assert |run| > 1 ==> run[|run| - 1] == run[1..][|run| - 2];
    }
  }

  /** Whatever happened in between, in this address space and in others, remove_pages(base) unmaps exactly the
      pages its new_pages mapped and gives back exactly the frames they have got since. */
  lemma RemoveUndoesNew(s: State, base: nat, len: int, s1: State, run: seq<Event>, s2: State, r: Result)
    returns (b: nat, e: nat)
    requires s.cur in s.dirs && RunsOk(s.dirs[s.cur]) && NewPagesStep(s, base, len, s1, Ok) && IsRun(s1, run)
    requires Spared(s1, run, s.cur, base / PAGE_SIZE, Within((base + len) / PAGE_SIZE))
    requires Final(s1, run).cur == s.cur && s.cur in Final(s1, run).dirs && RemovePagesStep(Final(s1, run), base, s2, r)
    ensures base == b * PAGE_SIZE && e == Within((base + len) / PAGE_SIZE) && r == Ok
    ensures var f := Final(s1, run);
            && s2.dirs == f.dirs[s.cur := WithoutPages(f.dirs[s.cur], b, e)]
            && Used(s2.alloc) == Used(f.alloc) - FramesIn(f.dirs[s.cur], b, e)
  {
    b, e := NewPagesMakesRun(s, base, len, s1);
    assert b == base / PAGE_SIZE;
    RunKeptThroughout(s1, run, s.cur, b, e);
    RemovePagesUnmapsRun(Final(s1, run), b, e, s2, r);
  }

  // ------------------------------------------------------------------ new_pages is all or nothing

  /** new_pages changes no page when it fails and exactly the pages asked for when it succeeds; it takes no
      frame either way.  It changes nothing when the arguments, the frames or an allocated page stand against it. */
  lemma AllOrNothing(s: State, base: nat, len: int, s': State, r: Result)
    requires Inv(s) && NewPagesStep(s, base, len, s', r)
    ensures r == Ok || r == Fail
    ensures r == Fail ==> s'.dirs == s.dirs && s'.mem == s.mem && s'.nullMapped == s.nullMapped
    ensures r == Ok ==>
              var b, e := base / PAGE_SIZE, base / PAGE_SIZE + len / PAGE_SIZE;
              s'.dirs == s.dirs[s.cur := s.dirs[s.cur] + ZeroRun(b, Within(e))]
    ensures Refused(s, base, len) ==> r == Fail && s' == s
    ensures NumFree(s'.alloc) + |s'.alloc.lost| == NumFree(s.alloc) + |s.alloc.lost|
  {
    var o: Owners :| InvAt(s, o);
    assert s.dirs[s.cur := s.dirs[s.cur]] == s.dirs;
    if s' != s {
      SameUsedSameFree(s.alloc, s'.alloc);
    }
  }

  lemma SameUsedSameFree(a: Alloc, a': Alloc)
    requires Valid(a) && SameFrames(a, a')
    ensures NumFree(a') + |a'.lost| == NumFree(a) + |a.lost|
  {
    Conserved(a);
    Conserved(a');
  }

  /** A range that runs past the last page and more than one page round meets the kernel's. */
  lemma WrapRefused(d: Dir, nullMapped: bool, b: nat, n: nat)
    requires b < NUM_PAGES && b + n > NUM_PAGES + 1
    ensures Overlaps(d, nullMapped, b, b + n)
  {
    assert Allocated(d, nullMapped, NUM_PAGES + 1);
  }

  // ------------------------------------------------------------------ fork

  /** fork's copy: the child has the parent's pages with the same content and flags on frames no page had;
      the parent's pages, flags and contents are what they were. */
  lemma ForkCopies(s: State, c: DirId, s': State, p: Page)
    requires Inv(s) && ForkStep(s, c, s', Ok) && p in s.dirs[s.cur]
    ensures p in s'.dirs[c] && s'.dirs[s.cur] == s.dirs[s.cur]
    ensures var old_, new_ := s.dirs[s.cur][p], s'.dirs[c][p];
            && old_.frame in s.mem && old_.frame in s'.mem && new_.frame in s'.mem
            && s'.mem[new_.frame] == s.mem[old_.frame] && s'.mem[old_.frame] == s.mem[old_.frame]
            && new_.writable == old_.writable && new_.mark == old_.mark
            && forall d, q :: !Maps(s, d, q, new_.frame)
  {
    var o: Owners :| InvAt(s, o);
    assert PteOk(s, o, s.cur, p) && Copied(s, s', s.dirs[s.cur], s'.dirs[c], p);
    var f := s'.dirs[c][p].frame;
    assert f in FramesOf(s'.dirs[c]);
    forall d, q
      ensures !Maps(s, d, q, f)
    {
      assert PteOk(s, o, d, q);
    }
  }

  /** What a program may do with a page: a page on the zero frame becomes writable when it is first written. */
  predicate MayWrite(pte: Pte) {
    pte.writable || pte.frame == ZERO_FRAME
  }

  /** The copy of a page may be written as the original may, unless nobody had written to the original yet. */
  lemma ForkWritability(s: State, c: DirId, s': State, p: Page)
    requires Inv(s) && ForkStep(s, c, s', Ok) && p in s.dirs[s.cur]
    ensures p in s'.dirs[c]
    ensures MayWrite(s'.dirs[c][p]) == MayWrite(s.dirs[s.cur][p]) <==> s.dirs[s.cur][p].frame != ZERO_FRAME
  {
    var o: Owners :| InvAt(s, o);
    assert PteOk(s, o, s.cur, p) && Copied(s, s', s.dirs[s.cur], s'.dirs[c], p);
  }

  /** A fork that fails leaves every page, every frame in use and every content alone. */
  lemma ForkFails(s: State, c: DirId, s': State)
    requires Inv(s) && ForkStep(s, c, s', Fail)
    ensures s'.dirs == s.dirs && s'.tables == s.tables && Used(s'.alloc) == Used(s.alloc)
    ensures NumFree(s'.alloc) + |s'.alloc.lost| == NumFree(s.alloc) + |s.alloc.lost|
    ensures forall d, p :: d in s.dirs && p in s.dirs[d] ==>
              var f := s.dirs[d][p].frame; f in s.mem && f in s'.mem && s'.mem[f] == s.mem[f]
  {
    var o: Owners :| InvAt(s, o);
    Conserved(s.alloc);
    Conserved(s'.alloc);
    forall d, p | d in s.dirs && p in s.dirs[d]
      ensures var f := s.dirs[d][p].frame; f in s.mem && f in s'.mem && s'.mem[f] == s.mem[f]
    {
      assert PteOk(s, o, d, p) && MemOk(s, s.dirs[d][p].frame);
    }
  }
}
