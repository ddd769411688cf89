/** Every operation on address spaces keeps the invariant of module Vm, and runs whole unless a write breaks one. */
module VmProofs {
  import opened Seqs
  import opened PhysAlloc
  import opened PageTable
  import opened Vm

  lemma MemKept(s: State, s': State)
    requires forall f {:trigger MemOk(s, f)} :: MemOk(s, f)
    requires SameMemory(s, s', {}) && s'.alloc.limit == s.alloc.limit
    ensures forall f {:trigger MemOk(s', f)} :: MemOk(s', f)
  {
    forall f
      ensures MemOk(s', f)
    {
      assert MemOk(s, f);
    }
  }

  // ------------------------------------------------------------------ new_pages

  /** The range new_pages fills is empty before. */
  lemma RangeClear(d: Dir, nullMapped: bool, b: nat, e: nat)
    requires FIRST_PAGE <= b && !Overlaps(d, nullMapped, b, e)
    ensures forall p: Page :: b <= p < e ==> p !in d
  {
    forall p: Page | b <= p < e
      ensures p !in d
    {
      assert p in d ==> Allocated(d, nullMapped, p);
    }
  }

  lemma ZeroRunOwned(s: State, o: Owners, b: nat, e: nat, s': State)
    requires Owned(s, o) && s.cur in s.dirs && FIRST_PAGE <= b && e <= NUM_PAGES
    requires forall p: Page :: b <= p < e ==> p !in s.dirs[s.cur]
    requires OnlyDir(s, s', s.cur, s.dirs[s.cur] + ZeroRun(b, e)) && SameFrames(s.alloc, s'.alloc)
    requires forall p: Page :: b <= p < e ==> PdIndex(p) in s'.tables[s.cur]
    ensures Owned(s', o)
  {
    forall d, p
      ensures PteOk(s', o, d, p)
    {
      assert PteOk(s, o, d, p);
    }
    forall f
      ensures OwnerOk(s', o, f)
    {
      assert OwnerOk(s, o, f);
      if f in o && o[f].0 == s.cur {
        assert PteOk(s, o, s.cur, o[f].1);
      }
    }
  }

  lemma SameOwned(s: State, o: Owners, s': State)
    requires Owned(s, o) && s.cur in s.dirs && OnlyDir(s, s', s.cur, s.dirs[s.cur]) && SameFrames(s.alloc, s'.alloc)
    ensures Owned(s', o)
  {
    forall d, p
      ensures PteOk(s', o, d, p)
    {
      assert PteOk(s, o, d, p);
    }
    forall f
      ensures OwnerOk(s', o, f)
    {
      assert OwnerOk(s, o, f);
    }
  }

  lemma NewPagesKeeps(s: State, o: Owners, base: nat, len: int, s': State, r: Result)
    requires InvAt(s, o) && NewPagesStep(s, base, len, s', r)
    ensures InvAt(s', o)
  {
    if s' != s {
      var b, e := base / PAGE_SIZE, base / PAGE_SIZE + len / PAGE_SIZE;
      MemKept(s, s');
      if r == Ok {
        RangeClear(s.dirs[s.cur], s.nullMapped, b, e);
        ZeroRunOwned(s, o, b, Within(e), s');
      } else {
        SameOwned(s, o, s');
      }
    }
  }

  // ------------------------------------------------------------------ pages go

  ghost function Restrict(o: Owners, keep: set<Frame>): Owners {
    map f | f in o && f in keep :: o[f]
  }

  /** Some pages of d leave it and give their frames back. */
  ghost predicate Leaves(s: State, s': State, d: DirId, gone: set<Page>) {
    && d in s.dirs && d in s'.dirs && s'.dirs == s.dirs[d := s'.dirs[d]]
    && (forall p :: p in s'.dirs[d] <==> p in s.dirs[d] && p !in gone)
    && (forall p :: p in s'.dirs[d] ==> s'.dirs[d][p] == s.dirs[d][p])
    && Frames(s.alloc, s'.alloc, {}, set p | p in s.dirs[d] && p in gone
      && s.dirs[d][p].frame != ZERO_FRAME :: s.dirs[d][p].frame)
  }

  lemma LeavesOwned(s: State, o: Owners, s': State, d: DirId, gone: set<Page>)
    requires Owned(s, o) && Leaves(s, s', d, gone)
    requires s.tables.Keys <= s'.tables.Keys && forall e :: e in s.tables ==> s.tables[e] <= s'.tables[e]
    ensures Owned(s', Restrict(o, Used(s'.alloc)))
  {
    var o' := Restrict(o, Used(s'.alloc));
    var given := set p | p in s.dirs[d] && p in gone && s.dirs[d][p].frame != ZERO_FRAME :: s.dirs[d][p].frame;
    assert o'.Keys == Used(s'.alloc);
    forall e, p
      ensures PteOk(s', o', e, p)
    {
      assert PteOk(s, o, e, p);
      forall q | q in s.dirs[d] && q in gone && s.dirs[d][q].frame != ZERO_FRAME
        ensures s.dirs[d][q].frame in o && o[s.dirs[d][q].frame] == (d, q)
      {
        assert PteOk(s, o, d, q);
      }
    }
    forall f
      ensures OwnerOk(s', o', f)
    {
      assert OwnerOk(s, o, f);
      assert f in o && o[f].0 == d && o[f].1 in gone ==> s.dirs[d][o[f].1].frame in given;
    }
  }

  lemma RemovePagesKeeps(s: State, o: Owners, base: nat, s': State, r: Result)
    requires InvAt(s, o) && RemovePagesStep(s, base, s', r)
    ensures Inv(s')
  {
    var d := s.dirs[s.cur];
    if !RemoveRefused(d, base) {
      var b: Page := base / PAGE_SIZE;
      var e := RunEnd(d, b + 1);
      var gone := Pages(b, e);
      assert (set p | p in d && p in gone && d[p].frame != ZERO_FRAME :: d[p].frame) == FramesIn(d, b, e);
      LeavesOwned(s, o, s', s.cur, gone);
      MemKept(s, s');
      assert InvAt(s', Restrict(o, Used(s'.alloc)));
    } else {
      assert InvAt(s', o);
    }
  }

  lemma FreeDirOwned(s: State, o: Owners, d: DirId, s': State)
    requires Owned(s, o) && d in s.dirs && s'.dirs == s.dirs - {d} && s'.tables == s.tables - {d}
    requires Frames(s.alloc, s'.alloc, {}, FramesOf(s.dirs[d]))
    ensures Owned(s', Restrict(o, Used(s'.alloc)))
  {
    var o' := Restrict(o, Used(s'.alloc));
    assert o'.Keys == Used(s'.alloc);
    forall e, p
      ensures PteOk(s', o', e, p)
    {
      assert PteOk(s, o, e, p);
      forall q | q in s.dirs[d] && s.dirs[d][q].frame != ZERO_FRAME
        ensures s.dirs[d][q].frame in o && o[s.dirs[d][q].frame] == (d, q)
      {
        assert PteOk(s, o, d, q);
      }
    }
    forall f
      ensures OwnerOk(s', o', f)
    {
      assert OwnerOk(s, o, f);
      assert f in o && o[f].0 == d ==> s.dirs[d][o[f].1].frame in FramesOf(s.dirs[d]);
    }
  }

  lemma FreeDirKeeps(s: State, o: Owners, d: DirId, s': State, r: Result)
    requires InvAt(s, o) && FreeDirStep(s, d, s', r)
    ensures Inv(s')
  {
    FreeDirOwned(s, o, d, s');
    MemKept(s, s');
    assert InvAt(s', Restrict(o, Used(s'.alloc)));
  }

  // ------------------------------------------------------------------ pages come

  /** One page of d gets a frame of its own. */
  ghost predicate Gets(s: State, s': State, d: DirId, p: Page, f: Frame) {
    && d in s.dirs && d in s'.dirs && s'.dirs == s.dirs[d := s'.dirs[d]] && FIRST_PAGE <= p
    && p in s'.dirs[d] && s'.dirs[d] == s.dirs[d][p := s'.dirs[d][p]] && s'.dirs[d][p].frame == f
    && (p in s.dirs[d] ==> s.dirs[d][p].frame == ZERO_FRAME)
    && f in Free(s.alloc) && Frames(s.alloc, s'.alloc, {f}, {})
    && d in s'.tables && PdIndex(p) in s'.tables[d]
    && s.tables.Keys <= s'.tables.Keys && (forall e :: e in s.tables ==> s.tables[e] <= s'.tables[e])
  }

  lemma FreeIsUser(a: Alloc, f: Frame)
    requires Valid(a) && f in Free(a)
    ensures f != ZERO_FRAME && f !in Used(a) && f in Below(FIRST_FRAME, a.limit)
  {
  }

  lemma GetsOwned(s: State, o: Owners, s': State, d: DirId, p: Page, f: Frame)
    requires Owned(s, o) && Valid(s.alloc) && Gets(s, s', d, p, f)
    ensures Owned(s', o[f := (d, p)])
  {
    var o' := o[f := (d, p)];
    FreeIsUser(s.alloc, f);
    forall e, q
      ensures PteOk(s', o', e, q)
    {
      assert PteOk(s, o, e, q);
    }
    forall g
      ensures OwnerOk(s', o', g)
    {
      assert OwnerOk(s, o, g);
      if g in o {
        assert PteOk(s, o, o[g].0, o[g].1);
      }
    }
  }

  lemma DemandKeeps(s: State, o: Owners, p: Page, f: Frame, c: Content, s': State)
    requires InvAt(s, o) && p in s.dirs[s.cur] && s.dirs[s.cur][p].frame == ZERO_FRAME
    requires Replaced(s, s', p, f, c)
    ensures InvAt(s', o[f := (s.cur, p)])
  {
    assert PteOk(s, o, s.cur, p);
    GetsOwned(s, o, s', s.cur, p, f);
    MemKept(s, s');
  }

  lemma FreshKeeps(s: State, o: Owners, d: DirId, p: Page, pte: Pte, s': State)
    requires InvAt(s, o) && d in s.dirs && p !in s.dirs[d] && FIRST_PAGE <= p
    requires OnlyDir(s, s', d, s.dirs[d][p := pte]) && PdIndex(p) in s'.tables[d] && s'.mem == s.mem
    requires pte.frame in Free(s.alloc) && Frames(s.alloc, s'.alloc, {pte.frame}, {})
    ensures InvAt(s', o[pte.frame := (d, p)])
  {
    assert Gets(s, s', d, p, pte.frame);
    GetsOwned(s, o, s', d, p, pte.frame);
    MemKept(s, s');
  }

  lemma AllocateFrameKeeps(s: State, o: Owners, d: DirId, p: Page, w: bool, s': State, r: Result)
    requires InvAt(s, o) && AllocateFrameStep(s, d, p, w, s', r)
    ensures Inv(s')
  {
    if s' == s {
      assert InvAt(s', o);
    } else {
      var f :| f in Free(s.alloc) && Frames(s.alloc, s'.alloc, {f}, {})
               && OnlyDir(s, s', d, s.dirs[d][p := Pte(f, w, Plain)]) && PdIndex(p) in s'.tables[d];
      FreshKeeps(s, o, d, p, Pte(f, w, Plain), s');
      assert InvAt(s', o[f := (d, p)]);
    }
  }

  // ------------------------------------------------------------------ writes

  /** A write in place touches no table and no other frame. */
  lemma StoreKeeps(s: State, o: Owners, p: Page, off: nat, v: Byte, s': State)
    requires InvAt(s, o) && p in s.dirs[s.cur] && s.dirs[s.cur][p].writable && off < PAGE_SIZE
    requires var f := s.dirs[s.cur][p].frame;
             f in s.mem && off < |s.mem[f]| && s' == s.(mem := s.mem[f := s.mem[f][off := v]])
    ensures InvAt(s', o)
  {
    assert PteOk(s, o, s.cur, p);
    forall g
      ensures MemOk(s', g)
    {
      assert MemOk(s, g);
    }
    forall d, q
      ensures PteOk(s', o, d, q)
    {
      assert PteOk(s, o, d, q);
    }
    forall g
      ensures OwnerOk(s', o, g)
    {
      assert OwnerOk(s, o, g);
    }
  }

  /** The page a write needs is unmapped because no frame is left. */
  lemma ExhaustedKeeps(s: State, o: Owners, addr: nat, v: Byte, s': State, r: Result)
    requires InvAt(s, o) && Exhausted(s, addr) && WriteStep(s, addr, v, s', r)
    ensures InvAt(s', o)
  {
    forall d, q
      ensures PteOk(s', o, d, q)
    {
      assert PteOk(s, o, d, q);
    }
    forall f
      ensures OwnerOk(s', o, f)
    {
      assert OwnerOk(s, o, f);
      if f in o {
        assert PteOk(s, o, o[f].0, o[f].1);
      }
    }
    MemKept(s, s');
  }

  lemma WriteKeeps(s: State, o: Owners, addr: nat, v: Byte, s': State, r: Result)
    requires InvAt(s, o) && WriteStep(s, addr, v, s', r)
    ensures Inv(s')
  {
    var d, p := s.dirs[s.cur], addr / PAGE_SIZE;
    if Exhausted(s, addr) {
      ExhaustedKeeps(s, o, addr, v, s', r);
    } else if Demand(s, addr) {
      var c := ZeroPage()[addr % PAGE_SIZE := v];
      var f :| Replaced(s, s', p, f, c);
      DemandKeeps(s, o, p, f, c, s');
    } else if p < NUM_PAGES && p in d && d[p].writable {
      StoreKeeps(s, o, p, addr % PAGE_SIZE, v, s');
    } else {
      assert InvAt(s', o);
    }
  }

  // ------------------------------------------------------------------ fork

  ghost function PageOf(d: Dir, f: Frame): Page
    requires exists p :: p in d && d[p].frame == f
  {
    var p :| p in d && d[p].frame == f; p
  }

  ghost function ForkOwners(o: Owners, c: DirId, child: Dir): Owners {
    o + map f | f in FramesOf(child) :: (c, PageOf(child, f))
  }

  lemma ForkOwned(s: State, o: Owners, c: DirId, s': State)
    requires Owned(s, o) && s.cur in s.dirs && s.cur in s.tables && ForkStep(s, c, s', Ok)
    ensures Owned(s', ForkOwners(o, c, s'.dirs[c]))
  {
    var child := s'.dirs[c];
    var o' := ForkOwners(o, c, child);
    assert o'.Keys == o.Keys + FramesOf(child);
    forall d, p
      ensures PteOk(s', o', d, p)
    {
      assert PteOk(s, o, d, p);
      if d == c && p in child {
        assert PteOk(s, o, s.cur, p) && Copied(s, s', s.dirs[s.cur], child, p);
        assert child[p].frame in FramesOf(child);
      }
    }
    forall f
      ensures OwnerOk(s', o', f)
    {
      assert OwnerOk(s, o, f);
    }
  }

  lemma ForkKeeps(s: State, o: Owners, c: DirId, s': State, r: Result)
    requires InvAt(s, o) && ForkStep(s, c, s', r)
    ensures Inv(s')
  {
    MemKept(s, s');
    if r == Ok {
      ForkOwned(s, o, c, s');
      assert InvAt(s', ForkOwners(o, c, s'.dirs[c]));
    } else {
      assert s'.dirs == s.dirs[s.cur := s.dirs[s.cur]];
      assert s'.tables == s.tables[s.cur := s.tables[s.cur]];
      SameOwned(s, o, s');
      assert InvAt(s', o);
    }
  }

  lemma SwitchKeeps(s: State, o: Owners, d: DirId)
    requires InvAt(s, o) && d in s.dirs
    ensures InvAt(s.(cur := d, tlb := Walk(s.dirs[d])), o)
  {
    var s' := s.(cur := d, tlb := Walk(s.dirs[d]));
    forall e, p
      ensures PteOk(s', o, e, p)
    {
      assert PteOk(s, o, e, p);
    }
    forall f
      ensures OwnerOk(s', o, f) && MemOk(s', f)
    {
      assert OwnerOk(s, o, f) && MemOk(s, f);
    }
  }

  lemma NewDirKeeps(s: State, o: Owners, d: DirId, s': State, r: Result)
    requires InvAt(s, o) && NewDirStep(s, d, s', r)
    ensures InvAt(s', o)
  {
    forall e, p
      ensures PteOk(s', o, e, p)
    {
      assert PteOk(s, o, e, p);
    }
    forall f
      ensures OwnerOk(s', o, f) && MemOk(s', f)
    {
      assert OwnerOk(s, o, f) && MemOk(s, f);
    }
  }

  /** Every operation keeps the invariant. */
  lemma NextKeeps(s: State, op: Op, s': State, r: Result)
    requires Inv(s) && Next(s, op, s', r)
    ensures Inv(s')
  {
    var o: Owners :| InvAt(s, o);
    match op
    case NewPages(base, len) => NewPagesKeeps(s, o, base, len, s', r);
    case RemovePages(base) => RemovePagesKeeps(s, o, base, s', r);
    case Read(addr) =>
    case Write(addr, v) => WriteKeeps(s, o, addr, v, s', r);
    case Fork(c, _) => ForkKeeps(s, o, c, s', r);
    case Switch(d) => SwitchKeeps(s, o, d);
    case NewDir(d) => NewDirKeeps(s, o, d, s', r);
    case FreeDir(d) => FreeDirKeeps(s, o, d, s', r);
    case AllocateFrame(d, p, w) => AllocateFrameKeeps(s, o, d, p, w, s', r);
  }

  // ------------------------------------------------------------------ runs stay whole

  /** Directories other than d are as before. */
  lemma RunsElsewhere(s: State, s': State, d: DirId)
    requires AllRuns(s) && d in s'.dirs && s'.dirs.Keys - {d} <= s.dirs.Keys
    requires forall e :: e in s'.dirs && e != d ==> s'.dirs[e] == s.dirs[e]
    requires RunsOk(s'.dirs[d])
    ensures AllRuns(s')
  {
    forall e
      ensures DirOk(s', e)
    {
      assert DirOk(s, e);
      assert e in s'.dirs && e != d ==> e in s'.dirs.Keys - {d};
    }
  }

  lemma FewerRuns(s: State, s': State)
    requires AllRuns(s) && s'.dirs.Keys <= s.dirs.Keys && forall e :: e in s'.dirs ==> s'.dirs[e] == s.dirs[e]
    ensures AllRuns(s')
  {
    forall e
      ensures DirOk(s', e)
    {
      assert DirOk(s, e);
      assert e in s'.dirs ==> e in s'.dirs.Keys;
    }
  }

  lemma ZeroRunRuns(d: Dir, b: nat, e: nat)
    requires RunsOk(d) && FIRST_PAGE <= b < e <= NUM_PAGES && forall p: Page :: b <= p < e ==> p !in d
    ensures RunsOk(d + ZeroRun(b, e))
  {
    var last: Page := e - 1;
    assert last !in d;
    var d' := d + ZeroRun(b, e);
    forall p: Page
      ensures RunOk(d', p)
    {
      assert RunOk(d, p);
    }
  }

  lemma NewPagesRuns(s: State, base: nat, len: int, s': State, r: Result)
    requires s.cur in s.dirs && AllRuns(s) && NewPagesStep(s, base, len, s', r)
    ensures AllRuns(s')
  {
    if r == Ok {
      var b, e := base / PAGE_SIZE, base / PAGE_SIZE + len / PAGE_SIZE;
      RangeClear(s.dirs[s.cur], s.nullMapped, b, e);
      assert DirOk(s, s.cur);
      ZeroRunRuns(s.dirs[s.cur], b, Within(e));
      RunsElsewhere(s, s', s.cur);
    } else {
      FewerRuns(s, s');
    }
  }

  lemma RunLeft(d: Dir, b: Page)
    requires RunsOk(d)
    ensures RunsOk(WithoutPages(d, b, RunEnd(d, b + 1)))
  {
    var e := RunEnd(d, b + 1);
    forall p: Page
      ensures RunOk(WithoutPages(d, b, e), p)
    {
      assert RunOk(d, p);
    }
  }

  lemma RemovePagesRuns(s: State, base: nat, s': State, r: Result)
    requires s.cur in s.dirs && AllRuns(s) && RemovePagesStep(s, base, s', r)
    ensures AllRuns(s')
  {
    if !RemoveRefused(s.dirs[s.cur], base) {
      assert DirOk(s, s.cur);
      RunLeft(s.dirs[s.cur], base / PAGE_SIZE);
      RunsElsewhere(s, s', s.cur);
    }
  }

  lemma SameMarksRuns(d: Dir, d': Dir)
    requires RunsOk(d) && d'.Keys == d.Keys && forall p :: p in d ==> d'[p].mark == d[p].mark
    ensures RunsOk(d')
  {
    forall p: Page
      ensures RunOk(d', p)
    {
      assert RunOk(d, p);
    }
  }

  lemma PlainRuns(d: Dir, p: Page, pte: Pte)
    requires RunsOk(d) && p !in d && pte.mark == Plain
    ensures RunsOk(d[p := pte])
  {
    var d' := d[p := pte];
    forall q: Page
      ensures RunOk(d', q)
    {
      assert RunOk(d, q);
    }
  }

  lemma AllocateFrameRuns(s: State, d: DirId, p: Page, w: bool, s': State, r: Result)
    requires s.cur in s.dirs && AllRuns(s) && AllocateFrameStep(s, d, p, w, s', r)
    ensures AllRuns(s')
  {
    if s' != s {
      var f :| f in Free(s.alloc) && Frames(s.alloc, s'.alloc, {f}, {})
               && OnlyDir(s, s', d, s.dirs[d][p := Pte(f, w, Plain)]) && PdIndex(p) in s'.tables[d];
      assert DirOk(s, d);
      PlainRuns(s.dirs[d], p, Pte(f, w, Plain));
      RunsElsewhere(s, s', d);
    }
  }

  lemma ForkRuns(s: State, c: DirId, s': State, r: Result)
    requires s.cur in s.dirs && s.cur in s.tables && AllRuns(s) && ForkStep(s, c, s', r)
    ensures AllRuns(s')
  {
    if r == Ok {
      assert DirOk(s, s.cur);
      forall p | p in s.dirs[s.cur]
        ensures s'.dirs[c][p].mark == s.dirs[s.cur][p].mark
      {
        assert Copied(s, s', s.dirs[s.cur], s'.dirs[c], p);
      }
      SameMarksRuns(s.dirs[s.cur], s'.dirs[c]);
      RunsElsewhere(s, s', c);
    } else {
      FewerRuns(s, s');
    }
  }

  /** Without page p the runs are whole if and only if the next page does not continue it. */
  lemma ExhaustedRuns(d: Dir, p: Page)
    requires RunsOk(d) && p in d
    ensures RunsOk(d - {p}) <==> !(p + 1 < NUM_PAGES && p + 1 in d && d[p + 1].mark == Continue)
  {
    forall q: Page | q != p + 1
      ensures RunOk(d - {p}, q)
    {
      assert RunOk(d, q);
    }
    if p + 1 < NUM_PAGES {
      var n: Page := p + 1;
      assert RunOk(d, n);
      assert RunsOk(d - {p}) ==> RunOk(d - {p}, n);
    }
  }

  ghost predicate BreaksRun(s: State, addr: nat)
    requires s.cur in s.dirs
  {
    var d, p := s.dirs[s.cur], addr / PAGE_SIZE;
    Exhausted(s, addr) && p + 1 < NUM_PAGES && p + 1 in d && d[p + 1].mark == Continue
  }

  lemma WriteRunsIff(s: State, addr: nat, v: Byte, s': State, r: Result)
    requires s.cur in s.dirs && AllRuns(s) && WriteStep(s, addr, v, s', r)
    ensures AllRuns(s') <==> !BreaksRun(s, addr)
  {
    var d, p := s.dirs[s.cur], addr / PAGE_SIZE;
    assert DirOk(s, s.cur);
    if Exhausted(s, addr) {
      ExhaustedRuns(d, p);
      assert AllRuns(s') ==> DirOk(s', s.cur);
      if RunsOk(d - {p}) {
        RunsElsewhere(s, s', s.cur);
      }
    } else if Demand(s, addr) {
      var c := ZeroPage()[addr % PAGE_SIZE := v];
      var f :| Replaced(s, s', p, f, c);
      SameMarksRuns(d, s'.dirs[s.cur]);
      RunsElsewhere(s, s', s.cur);
    } else {
      FewerRuns(s, s');
    }
  }

  /** An operation that unmaps the middle of a run for want of a frame. */
  ghost predicate Breaks(s: State, op: Op) {
    op.Write? && s.cur in s.dirs && BreaksRun(s, op.addr)
  }

  /** Every operation leaves runs whole, except exactly such a write. */
  lemma RunsKeptIff(s: State, op: Op, s': State, r: Result)
    requires AllRuns(s) && Next(s, op, s', r)
    ensures AllRuns(s') <==> !Breaks(s, op)
  {
    match op
    case NewPages(base, len) => NewPagesRuns(s, base, len, s', r);
    case RemovePages(base) => RemovePagesRuns(s, base, s', r);
    case Write(addr, v) => WriteRunsIff(s, addr, v, s', r);
    case Fork(c, _) => ForkRuns(s, c, s', r);
    case NewDir(d) => NewDirRuns(s, d, s');
    case AllocateFrame(d, p, w) => AllocateFrameRuns(s, d, p, w, s', r);
    case _ => FewerRuns(s, s');
  }

  lemma NewDirRuns(s: State, d: DirId, s': State)
    requires AllRuns(s) && d !in s.dirs && s'.dirs == s.dirs[d := map[]]
    ensures AllRuns(s')
  {
    forall p: Page
      ensures RunOk(map[], p)
    {
    }
    RunsElsewhere(s, s', d);
  }
}
