/** What each operation on an address space answers and does, in terms of pages, frames and contents.

    No outcome is stated through a predicate of the specification other than `Next` and `Inv`: when a call is granted and
    what it leaves behind is said of the pages of the directory, the free frames and the bytes of memory. */
module VmOutcomes {
  import opened PhysAlloc
  import opened PageTable
  import opened Vm
  import opened VmProofs
  import opened VmTheorems

  /** The current directory. */
  function Cur(s: State): Dir
    requires s.cur in s.dirs
  {
    s.dirs[s.cur]
  }

  /** Directories other than the current one and the contents of frames in use are as before. */
  ghost predicate OthersSame(s: State, s': State) {
    && s'.cur == s.cur && s.cur in s.dirs && s.cur in s'.dirs && s'.dirs.Keys == s.dirs.Keys
    && (forall d :: d in s.dirs && d != s.cur ==> s'.dirs[d] == s.dirs[d])
    && (forall f :: f in Used(s.alloc) || f == ZERO_FRAME ==> f in s.mem && f in s'.mem && s'.mem[f] == s.mem[f])
  }

  /** The pages, the frames in use and the memory are as before. */
  ghost predicate NothingMoved(s: State, s': State) {
    && s'.dirs == s.dirs && s'.cur == s.cur && s'.mem == s.mem && Used(s'.alloc) == Used(s.alloc)
    && s'.nullMapped == s.nullMapped
  }

  lemma Facts(s: State) returns (o: Owners)
    requires Inv(s)
    ensures InvAt(s, o) && s.cur in s.dirs && s.cur in s.tables && Valid(s.alloc)
    ensures |Free(s.alloc)| == NumFree(s.alloc)
    ensures forall f :: f in Used(s.alloc) || f == ZERO_FRAME ==> f in s.mem
    ensures forall p :: p in s.dirs[s.cur] ==> FIRST_PAGE <= p
  {
    o :| InvAt(s, o);
    FreeSize(s.alloc);
    Split(s.alloc);
    forall f | f in Used(s.alloc) || f == ZERO_FRAME
      ensures f in s.mem
    {
      assert f in Used(s.alloc) ==> f in Below(FIRST_FRAME, s.alloc.limit);
      assert MemOk(s, f);
    }
    forall p | p in s.dirs[s.cur]
      ensures FIRST_PAGE <= p
    {
      assert PteOk(s, o, s.cur, p);
    }
  }

  // ------------------------------------------------------------------ new_pages

  /** A positive number of whole pages of user memory. */
  predicate WholePages(base: nat, len: int) {
    base >= USER_MEM_START && base % PAGE_SIZE == 0 && len > 0 && len % PAGE_SIZE == 0
  }

  predicate InRange(base: nat, len: int, p: nat) {
    base / PAGE_SIZE <= p < base / PAGE_SIZE + len / PAGE_SIZE
  }

  /** A page of the range is mapped already: a user page, or, past the last page, page 0 or the kernel's behind it. */
  ghost predicate Taken(s: State, base: nat, len: int)
    requires s.cur in s.dirs
  {
    || (exists p: Page :: InRange(base, len, p) && p in Cur(s))
    || (s.nullMapped && base / PAGE_SIZE + len / PAGE_SIZE > NUM_PAGES)
    || base / PAGE_SIZE + len / PAGE_SIZE > NUM_PAGES + 1
  }

  /** The directory has the page tables of the range. */
  ghost predicate HasTables(s: State, base: nat, len: int)
    requires s.cur in s.tables
  {
    forall p: Page :: InRange(base, len, p) ==> PdIndex(p) in s.tables[s.cur]
  }

  /** Whole pages of user memory, none of them mapped, and no more of them than free frames. */
  ghost predicate Grantable(s: State, base: nat, len: int)
    requires s.cur in s.dirs
  {
    WholePages(base, len) && len / PAGE_SIZE <= |Free(s.alloc)| && !Taken(s, base, len)
  }

  lemma TakenOverlaps(s: State, base: nat, len: int)
    requires s.cur in s.dirs && Taken(s, base, len) && len > 0 && base / PAGE_SIZE < NUM_PAGES
    requires forall p :: p in s.dirs[s.cur] ==> FIRST_PAGE <= p
    ensures Overlaps(s.dirs[s.cur], s.nullMapped, base / PAGE_SIZE, base / PAGE_SIZE + len / PAGE_SIZE)
  {
    var d, b, e := s.dirs[s.cur], base / PAGE_SIZE, base / PAGE_SIZE + len / PAGE_SIZE;
    if p: Page :| InRange(base, len, p) && p in d {
      assert Allocated(d, s.nullMapped, p);
    } else if e > NUM_PAGES + 1 {
      WrapRefused(d, s.nullMapped, b, len / PAGE_SIZE);
    } else {
      assert Allocated(d, s.nullMapped, NUM_PAGES);
    }
  }

  lemma OverlapsTaken(s: State, base: nat, len: int)
    requires s.cur in s.dirs && len > 0 && base >= USER_MEM_START
    requires Overlaps(s.dirs[s.cur], s.nullMapped, base / PAGE_SIZE, base / PAGE_SIZE + len / PAGE_SIZE)
    ensures Taken(s, base, len)
  {
    var d, b, e := s.dirs[s.cur], base / PAGE_SIZE, base / PAGE_SIZE + len / PAGE_SIZE;
    var q :| b <= q < e && Allocated(d, s.nullMapped, q);
    if q < NUM_PAGES {
      var p: Page := q;
      assert InRange(base, len, p) && p in d;
    }
  }

  lemma RefusedIs(s: State, base: nat, len: int)
    requires Inv(s) && s.cur in s.dirs
    ensures Refused(s, base, len) ==> !Grantable(s, base, len)
    ensures !Refused(s, base, len) && base / PAGE_SIZE < NUM_PAGES ==> Grantable(s, base, len)
  {
    var o := Facts(s);
    if WholePages(base, len) {
      if Overlaps(s.dirs[s.cur], s.nullMapped, base / PAGE_SIZE, base / PAGE_SIZE + len / PAGE_SIZE) {
        OverlapsTaken(s, base, len);
      } else if base / PAGE_SIZE < NUM_PAGES && Taken(s, base, len) {
        TakenOverlaps(s, base, len);
      }
    }
  }

  /** new_pages is granted only then, and fails then only for want of a page table; failing it changes nothing. */
  lemma NewPagesAnswers(s: State, base: nat, len: int, s': State, r: Result)
    requires Inv(s) && s.cur in s.dirs && s.cur in s.tables && Next(s, NewPages(base, len), s', r)
    ensures r == Ok || r == Fail
    ensures r == Ok ==> Grantable(s, base, len)
    ensures HasTables(s, base, len) ==> (r == Ok <==> Grantable(s, base, len))
    ensures r == Fail ==> NothingMoved(s, s')
  {
    RefusedIs(s, base, len);
    if r == Fail && s' != s {
      assert s'.dirs == s.dirs[s.cur := s.dirs[s.cur]] == s.dirs;
      var p: Page :| base / PAGE_SIZE <= p < base / PAGE_SIZE + len / PAGE_SIZE && NoTable(s, p);
      assert InRange(base, len, p);
    }
  }

  /** What a granted new_pages maps: the pages of the range on the zero frame, marked as a run; and nothing else. */
  lemma NewPagesMaps(s: State, base: nat, len: int, s': State, p: Page)
    requires Inv(s) && s.cur in s.dirs && Next(s, NewPages(base, len), s', Ok)
    ensures OthersSame(s, s') && Used(s'.alloc) == Used(s.alloc)
    ensures if InRange(base, len, p)
            then p in Cur(s') && Cur(s')[p] == Pte(ZERO_FRAME, false, if p * PAGE_SIZE == base then Base else Continue)
            else (p in Cur(s') <==> p in Cur(s)) && (p in Cur(s) ==> Cur(s')[p] == Cur(s)[p])
    ensures s'.nullMapped <==> s.nullMapped || base / PAGE_SIZE + len / PAGE_SIZE > NUM_PAGES
  {
    NewPagesRange(s, base, len, s');
    SameMem(s, base, len, s');
    RunAdded(s, base, base / PAGE_SIZE, base / PAGE_SIZE + len / PAGE_SIZE, s', p);
  }

  lemma RunAdded(s: State, base: nat, b: nat, e: nat, s': State, p: Page)
    requires Inv(s) && s.cur in s.dirs && s'.cur == s.cur && s'.mem == s.mem && base == b * PAGE_SIZE
    requires s'.dirs == s.dirs[s.cur := s.dirs[s.cur] + ZeroRun(b, Within(e))]
    ensures OthersSame(s, s')
    ensures if b <= p < e
            then p in Cur(s') && Cur(s')[p] == Pte(ZERO_FRAME, false, if p * PAGE_SIZE == base then Base else Continue)
            else (p in Cur(s') <==> p in Cur(s)) && (p in Cur(s) ==> Cur(s')[p] == Cur(s)[p])
  {
    var o := Facts(s);
    RangeMaps(Cur(s), Cur(s'), base, b, e, p);
  }

  lemma RangeMaps(d: Dir, d': Dir, base: nat, b: nat, e: nat, p: Page)
    requires base == b * PAGE_SIZE && d' == d + ZeroRun(b, Within(e))
    ensures if b <= p < e
            then p in d' && d'[p] == Pte(ZERO_FRAME, false, if p * PAGE_SIZE == base then Base else Continue)
            else (p in d' <==> p in d) && (p in d ==> d'[p] == d[p])
  {
  }

  lemma SameMem(s: State, base: nat, len: int, s': State)
    requires s.cur in s.dirs && Next(s, NewPages(base, len), s', Ok)
    ensures s'.mem == s.mem
  {
  }

  // ------------------------------------------------------------------ remove_pages

  /** remove_pages is granted exactly for the base of a run. */
  lemma RemovePagesAnswers(s: State, base: nat, s': State, r: Result)
    requires Inv(s) && s.cur in s.dirs && Next(s, RemovePages(base), s', r)
    ensures r == Ok || r == Fail
    ensures r == Ok <==> base % PAGE_SIZE == 0 && base / PAGE_SIZE < NUM_PAGES && base / PAGE_SIZE in Cur(s)
                         && Cur(s)[base / PAGE_SIZE].mark == Base
    ensures r == Fail ==> s' == s
  {
    var o := Facts(s);
  }

  /** The run at base ends before e. */
  ghost predicate RunAt(d: Dir, base: nat, e: nat) {
    && base / PAGE_SIZE < e <= NUM_PAGES
    && (forall q: Page :: base / PAGE_SIZE < q < e ==> q in d && d[q].mark == Continue)
    && (e < NUM_PAGES && e in d ==> d[e].mark != Continue)
  }

  /** It unmaps the base and the pages that continue it, whose frames are in use no longer; and nothing else. */
  lemma RemovePagesUnmaps(s: State, base: nat, s': State) returns (e: nat)
    requires Inv(s) && s.cur in s.dirs && Next(s, RemovePages(base), s', Ok)
    ensures RunAt(Cur(s), base, e) && s'.mem == s.mem && OthersSame(s, s')
    ensures forall p: Page :: p in Cur(s') <==> p in Cur(s) && !(base / PAGE_SIZE <= p < e)
    ensures forall p: Page :: p in Cur(s') ==> Cur(s')[p] == Cur(s)[p]
    ensures forall f :: f in Used(s'.alloc) <==> f in Used(s.alloc) && !OnPages(Cur(s), base / PAGE_SIZE, e, f)
    ensures s'.nullMapped <==> s.nullMapped && e < NUM_PAGES
  {
    e := RunEnd(Cur(s), base / PAGE_SIZE + 1);
    RemovedIs(s, base, s', e);
    PagesGone(s, s', base / PAGE_SIZE, e);
    FramesGone(s, s', base / PAGE_SIZE, e);
  }

  /** Some page from b up to e is on frame f. */
  ghost predicate OnPages(d: Dir, b: nat, e: nat, f: Frame) {
    exists p: Page :: b <= p < e && p in d && d[p].frame == f
  }

  lemma RemovedIs(s: State, base: nat, s': State, e: nat)
    requires Inv(s) && s.cur in s.dirs && Next(s, RemovePages(base), s', Ok)
    requires base / PAGE_SIZE < NUM_PAGES && e == RunEnd(Cur(s), base / PAGE_SIZE + 1)
    ensures RunAt(Cur(s), base, e) && s'.cur == s.cur && s'.mem == s.mem
    ensures s'.dirs == s.dirs[s.cur := WithoutPages(Cur(s), base / PAGE_SIZE, e)]
    ensures Used(s'.alloc) == Used(s.alloc) - FramesIn(Cur(s), base / PAGE_SIZE, e)
    ensures s'.nullMapped <==> s.nullMapped && e < NUM_PAGES
  {
  }

  lemma PagesGone(s: State, s': State, b: nat, e: nat)
    requires Inv(s) && s.cur in s.dirs && s'.cur == s.cur && s'.mem == s.mem
    requires s'.dirs == s.dirs[s.cur := WithoutPages(Cur(s), b, e)]
    ensures OthersSame(s, s')
    ensures forall p: Page :: p in Cur(s') <==> p in Cur(s) && !(b <= p < e)
    ensures forall p: Page :: p in Cur(s') ==> Cur(s')[p] == Cur(s)[p]
  {
    var o := Facts(s);
  }

  lemma FramesGone(s: State, s': State, b: nat, e: nat)
    requires Inv(s) && s.cur in s.dirs && Used(s'.alloc) == Used(s.alloc) - FramesIn(Cur(s), b, e)
    ensures forall f :: f in Used(s'.alloc) <==> f in Used(s.alloc) && !OnPages(Cur(s), b, e, f)
  {
    assert ZERO_FRAME !in Used(s.alloc);
  }

  // ------------------------------------------------------------------ reading and writing

  /** The byte a program finds at an address of a mapped page. */
  function ByteAt(s: State, d: Dir, addr: nat): Byte
    requires addr / PAGE_SIZE < NUM_PAGES && addr / PAGE_SIZE in d && d[addr / PAGE_SIZE].frame in s.mem
    requires |s.mem[d[addr / PAGE_SIZE].frame]| == PAGE_SIZE
  {
    s.mem[d[addr / PAGE_SIZE].frame][addr % PAGE_SIZE]
  }

  predicate IsMapped(s: State, addr: nat)
    requires s.cur in s.dirs
  {
    addr / PAGE_SIZE < NUM_PAGES && addr / PAGE_SIZE in Cur(s)
  }

  /** The page of the address. */
  function PteOf(s: State, addr: nat): Pte
    requires s.cur in s.dirs && IsMapped(s, addr)
  {
    Cur(s)[addr / PAGE_SIZE]
  }

  lemma MappedSized(s: State, o: Owners, p: Page)
    requires InvAt(s, o) && s.cur in s.dirs && p in s.dirs[s.cur]
    ensures s.dirs[s.cur][p].frame in s.mem && |s.mem[s.dirs[s.cur][p].frame]| == PAGE_SIZE
    ensures s.dirs[s.cur][p].frame == ZERO_FRAME || s.dirs[s.cur][p].frame in Used(s.alloc)
  {
    assert PteOk(s, o, s.cur, p);
    Split(s.alloc);
    assert MemOk(s, s.dirs[s.cur][p].frame);
  }

  /** A read changes nothing; it finds the byte of the page, or faults where no page is. */
  lemma ReadAnswers(s: State, addr: nat, s': State, r: Result)
    requires Inv(s) && s.cur in s.dirs && Next(s, Read(addr), s', r)
    ensures s' == s
    ensures IsMapped(s, addr) ==>
              && PteOf(s, addr).frame in s.mem && |s.mem[PteOf(s, addr).frame]| == PAGE_SIZE
              && r == Value(ByteAt(s, Cur(s), addr))
    ensures !IsMapped(s, addr) ==> r == if addr / PAGE_SIZE == 0 && s.nullMapped then Value(0) else Fault
  {
    var o := Facts(s);
    if IsMapped(s, addr) {
      MappedSized(s, o, addr / PAGE_SIZE);
    }
    assert MemOk(s, ZERO_FRAME);
  }

  /** When a write succeeds: into a writable page always, into a page on the zero frame while a frame is free. */
  lemma WriteAnswers(s: State, addr: nat, v: Byte, s': State, r: Result)
    requires Inv(s) && s.cur in s.dirs && Next(s, Write(addr, v), s', r)
    ensures r == Ok || r == Fault
    ensures r == Ok <==> IsMapped(s, addr) && (PteOf(s, addr).writable || (PteOf(s, addr).frame == ZERO_FRAME && Free(s.alloc) != {}))
  {
    var o := Facts(s);
    if IsMapped(s, addr) {
      MappedSized(s, o, addr / PAGE_SIZE);
    }
    assert Free(s.alloc) == {} <==> |Free(s.alloc)| == 0;
  }

  /** After a write that succeeds its byte is read back, and the other bytes and pages of the space are what they were. */
  ghost predicate Wrote(s: State, s': State, addr: nat, v: Byte)
    requires s.cur in s.dirs && IsMapped(s, addr)
  {
    var p := addr / PAGE_SIZE;
    && s'.cur == s.cur && s'.cur in s'.dirs && Cur(s').Keys == Cur(s).Keys && s'.nullMapped == s.nullMapped
    && Cur(s')[p].writable && Cur(s')[p].mark == Cur(s)[p].mark && Cur(s')[p].frame != ZERO_FRAME
    && (forall q :: q in Cur(s) && q != p ==> Cur(s')[q] == Cur(s)[q])
    && (forall d :: d in s.dirs && d != s.cur ==> d in s'.dirs && s'.dirs[d] == s.dirs[d])
    && Cur(s)[p].frame in s.mem && |s.mem[Cur(s)[p].frame]| == PAGE_SIZE
    && Cur(s')[p].frame in s'.mem && s'.mem[Cur(s')[p].frame] == s.mem[Cur(s)[p].frame][addr % PAGE_SIZE := v]
    && (forall f :: (f in Used(s.alloc) && f != Cur(s)[p].frame) || f == ZERO_FRAME ==>
          f in s.mem && f in s'.mem && s'.mem[f] == s.mem[f])
  }

  lemma WritesDemand(s: State, o: Owners, addr: nat, v: Byte, s': State, f: Frame)
    requires InvAt(s, o) && s.cur in s.dirs && Demand(s, addr)
    requires Replaced(s, s', addr / PAGE_SIZE, f, ZeroPage()[addr % PAGE_SIZE := v])
    ensures Wrote(s, s', addr, v) && f == Cur(s')[addr / PAGE_SIZE].frame && f in Free(s.alloc)
    ensures Used(s'.alloc) == Used(s.alloc) + {f}
  {
    Split(s.alloc);
    assert MemOk(s, ZERO_FRAME);
    forall g | g in Used(s.alloc)
      ensures g in s.mem
    {
      assert g in Below(FIRST_FRAME, s.alloc.limit) && MemOk(s, g);
    }
  }

  lemma WritesStore(s: State, o: Owners, addr: nat, v: Byte, s': State)
    requires InvAt(s, o) && s.cur in s.dirs && IsMapped(s, addr) && PteOf(s, addr).writable
    requires PteOf(s, addr).frame in s.mem
    requires |s.mem[PteOf(s, addr).frame]| == PAGE_SIZE
    requires s' == s.(mem := s.mem[PteOf(s, addr).frame := s.mem[PteOf(s, addr).frame][addr % PAGE_SIZE := v]])
    ensures Wrote(s, s', addr, v)
  {
    assert PteOk(s, o, s.cur, addr / PAGE_SIZE) && MemOk(s, ZERO_FRAME);
    Split(s.alloc);
    forall g | g in Used(s.alloc)
      ensures g in s.mem
    {
      assert g in Below(FIRST_FRAME, s.alloc.limit) && MemOk(s, g);
    }
  }

  lemma WriteWrites(s: State, addr: nat, v: Byte, s': State)
    requires Inv(s) && s.cur in s.dirs && Next(s, Write(addr, v), s', Ok)
    ensures IsMapped(s, addr) && Wrote(s, s', addr, v)
    ensures if PteOf(s, addr).writable then Used(s'.alloc) == Used(s.alloc)
            else Cur(s')[addr / PAGE_SIZE].frame in Free(s.alloc)
                 && Used(s'.alloc) == Used(s.alloc) + {Cur(s')[addr / PAGE_SIZE].frame}
  {
    var o: Owners :| InvAt(s, o);
    WriteAnswers(s, addr, v, s', Ok);
    MappedSized(s, o, addr / PAGE_SIZE);
    if Demand(s, addr) {
      var f :| Replaced(s, s', addr / PAGE_SIZE, f, ZeroPage()[addr % PAGE_SIZE := v]);
      WritesDemand(s, o, addr, v, s', f);
    } else {
      WritesStore(s, o, addr, v, s');
    }
  }

  /** A write that fails changes nothing, except that a page on the zero frame is unmapped when no frame is left. */
  lemma WriteFaults(s: State, addr: nat, v: Byte, s': State)
    requires Inv(s) && s.cur in s.dirs && Next(s, Write(addr, v), s', Fault)
    ensures if IsMapped(s, addr) && !PteOf(s, addr).writable && PteOf(s, addr).frame == ZERO_FRAME then
              && Free(s.alloc) == {} && s'.dirs == s.dirs[s.cur := Cur(s) - {addr / PAGE_SIZE}] && s'.cur == s.cur
              && s'.mem == s.mem && Used(s'.alloc) == Used(s.alloc) && s'.nullMapped == s.nullMapped
            else s' == s
  {
    var o := Facts(s);
    WriteAnswers(s, addr, v, s', Fault);
    assert Free(s.alloc) == {} <==> |Free(s.alloc)| == 0;
  }

  // ------------------------------------------------------------------ fork

  /** fork succeeds exactly when there is a frame for every page of the parent and kernel memory for the directory, the
      buffer and every page table. */
  lemma ForkAnswers(s: State, c: DirId, room: nat, s': State, r: Result)
    requires Inv(s) && s.cur in s.dirs && s.cur in s.tables && Next(s, Fork(c, room), s', r)
    ensures r == Ok || r == Fail
    ensures r == Ok <==> |Cur(s)| <= |Free(s.alloc)|
                         && 2 + |set i | i in s.tables[s.cur] && i >= NUM_KERN_PAGE_TABLES && i < ENTRIES| <= room
  {
    var o := Facts(s);
    assert UserTables(s.tables[s.cur]) == set i | i in s.tables[s.cur] && i >= NUM_KERN_PAGE_TABLES && i < ENTRIES;
  }

  /** It takes one frame for each page: as many as the parent has pages. */
  lemma ForkTakes(s: State, c: DirId, room: nat, s': State)
    requires Inv(s) && s.cur in s.dirs && Next(s, Fork(c, room), s', Ok)
    ensures Used(s.alloc) <= Used(s'.alloc) && |Used(s'.alloc)| == |Used(s.alloc)| + |Cur(s)|
  {
    var o := Facts(s);
    var child := s'.dirs[c];
    forall p | p in child
      ensures child[p].frame != ZERO_FRAME
    {
      assert Copied(s, s', s.dirs[s.cur], child, p);
    }
    FramesCount(child);
    assert child.Keys == Cur(s).Keys;
    assert |Used(s.alloc) + FramesOf(child)| == |Used(s.alloc)| + |FramesOf(child)|;
  }

  lemma FramesWithout(d: Dir, p: Page)
    requires DistinctFrames(d) && p in d && d[p].frame != ZERO_FRAME
    ensures FramesOf(d) == FramesOf(d - {p}) + {d[p].frame} && d[p].frame !in FramesOf(d - {p})
  {
    forall f | f in FramesOf(d)
      ensures f in FramesOf(d - {p}) || f == d[p].frame
    {
      var q :| q in d && d[q].frame != ZERO_FRAME && d[q].frame == f;
      assert q != p ==> q in d - {p} && (d - {p})[q].frame == f;
    }
  }

  lemma {:induction false} FramesCount(d: Dir)
    requires DistinctFrames(d) && forall p :: p in d ==> d[p].frame != ZERO_FRAME
    ensures |FramesOf(d)| == |d|
    decreases |d|
  {
    if d == map[] {
      assert FramesOf(d) == {};
    } else {
      var p :| p in d;
      var rest := d - {p};
      FramesCount(rest);
      FramesWithout(d, p);
      assert d.Keys == rest.Keys + {p};
    }
  }

  // ------------------------------------------------------------------ directories

  /** free_pd_memory: the directory goes, its frames are in use no longer, and nothing else changes. */
  lemma FreeDirOutcome(s: State, d: DirId, s': State, r: Result)
    requires Inv(s) && Next(s, FreeDir(d), s', r)
    ensures r == Ok && s'.cur == s.cur && s'.dirs == s.dirs - {d} && s'.mem == s.mem
    ensures forall f :: f in Used(s'.alloc) <==> f in Used(s.alloc) && !exists p :: Maps(s, d, p, f)
  {
    var o := Facts(s);
    assert ZERO_FRAME !in Used(s.alloc);
    forall f
      ensures f in FramesOf(s.dirs[d]) <==> f != ZERO_FRAME && exists p :: Maps(s, d, p, f)
    {
      if exists p :: Maps(s, d, p, f) {
        var p :| Maps(s, d, p, f);
      } else if f in FramesOf(s.dirs[d]) {
        var p :| p in s.dirs[d] && s.dirs[d][p].frame == f;
        assert Maps(s, d, p, f);
      }
    }
  }

  lemma SwitchOutcome(s: State, d: DirId, s': State, r: Result)
    requires Inv(s) && Next(s, Switch(d), s', r)
    ensures r == Ok && d in s.dirs && s'.cur == d && s'.dirs == s.dirs && s'.mem == s.mem && s'.alloc == s.alloc
    ensures forall c :: c in s'.tlb ==> c.page in s.dirs[d] && s.dirs[d][c.page].frame == c.frame
  {
    NextKeeps(s, Switch(d), s', r);
    var o := Facts(s');
  }

  // ------------------------------------------------------------------ a page for a program's segments

  /** allocate_frame of an absent page succeeds while a frame is free; a page that is there must have been mapped with
      the permission asked for, and for no run. */
  lemma AllocateFrameAnswers(s: State, d: DirId, p: Page, w: bool, s': State, r: Result)
    requires Inv(s) && d in s.dirs && Next(s, AllocateFrame(d, p, w), s', r)
    ensures r == Ok || r == Fail
    ensures r == Ok <==> if p in s.dirs[d] then s.dirs[d][p].writable == w && s.dirs[d][p].mark == Plain else Free(s.alloc) != {}
    ensures r == Fail || p in s.dirs[d] ==> s' == s
  {
    FreeSizeIs(s);
    assert Free(s.alloc) == {} <==> |Free(s.alloc)| == 0;
  }

  lemma FreeSizeIs(s: State)
    requires Inv(s)
    ensures |Free(s.alloc)| == NumFree(s.alloc)
  {
    var o := Facts(s);
  }

  /** It maps an absent page on a free frame, with that permission and for no run; and nothing else. */
  lemma AllocateFrameMaps(s: State, d: DirId, p: Page, w: bool, s': State)
    requires Inv(s) && d in s.dirs && p !in s.dirs[d] && Next(s, AllocateFrame(d, p, w), s', Ok)
    ensures d in s'.dirs && p in s'.dirs[d] && s'.dirs[d][p].writable == w && s'.dirs[d][p].mark == Plain
    ensures s'.dirs[d][p].frame in Free(s.alloc) && Used(s'.alloc) == Used(s.alloc) + {s'.dirs[d][p].frame}
    ensures s'.mem == s.mem && s'.cur == s.cur && s'.dirs.Keys == s.dirs.Keys
    ensures forall e, q :: e in s.dirs && (e != d || q != p) ==>
              (q in s'.dirs[e] <==> q in s.dirs[e]) && (q in s.dirs[e] ==> s'.dirs[e][q] == s.dirs[e][q])
  {
  }

  // ------------------------------------------------------------------ valid entries

  /** is_valid_pt accepts in a user's table exactly the entries that are present, not global, and on the zero frame, a
      frame some physalloc has handed out, or the one it hands out next; and in a kernel table exactly present entries
      below user memory. */
  lemma ValidEntryIff(a: Alloc, e: Entry, i: nat)
    requires Valid(a) && e.Entry?
    ensures i >= NUM_KERN_PAGE_TABLES ==>
              (EntryOk(e, i, a.next) <==>
                 && e.present && !e.global
                 && (e.frame == ZERO_FRAME || e.frame in Used(a) || e.frame in a.stack || e.frame in a.lost || e.frame == a.next))
    ensures i < NUM_KERN_PAGE_TABLES ==>
              (EntryOk(e, i, a.next) <==> e.present && 0 < e.frame < USER_MEM_START / PAGE_SIZE)
  {
    assert Elements(a.stack) == set f | f in a.stack;
  }
}
