/** memory_manager.c, new_pages.c, remove_pages.c as code: loops over pages, rollback, and fork's copy through a
    buffer and two switches of the page directory, each proved to be a step of module Vm.  Memory is accessed
    through the translation cache, by whatever entry it holds; kernel memory may run out at any time. */
module VmCode {
  import opened Seqs
  import opened PhysAlloc
  import opened PageTable
  import opened Vm
  import opened VmProofs
  import opened VmTheorems
  import Outcomes = VmOutcomes
  import opened VmLazy

  class MemoryManager {
    var dirs: map<DirId, Dir>
    var tables: map<DirId, set<nat>>
    var cr3: DirId
    var tlb: set<Cached>
    var mem: map<Frame, Content>
    var nullMapped: bool
    const phys: Allocator

    ghost predicate Ready()
      reads this, phys, phys.data
    {
      phys.Inv()
    }

    ghost function Snapshot(): State
      requires Ready()
      reads this, phys, phys.data
    {
      State(dirs, tables, cr3, tlb, mem, phys.View(), nullMapped)
    }

    constructor (d: DirId, machineFrames: Frame, ram: map<Frame, Content>)
      requires FIRST_FRAME <= machineFrames
      requires forall f :: f == ZERO_FRAME || f in Below(FIRST_FRAME, machineFrames) ==> f in ram && |ram[f]| == PAGE_SIZE
      ensures Ready() && fresh(phys) && fresh(phys.data) && Boots(Snapshot(), d, machineFrames)
    {
      dirs, tables, cr3, tlb := map[d := map[]], map[d := {}], d, {};
      mem, nullMapped := ram[ZERO_FRAME := ZeroPage()], false;
      phys := new Allocator(machineFrames);
      new;
      forall f
        ensures MemOk(Snapshot(), f)
      {
      }
    }

    // ------------------------------------------------------------------ hardware

    /** INVLPG: the entries of a page go; the processor may read the tables again at once. */
    method InvalidateTlb(p: Page)
      requires cr3 in dirs && Walk(dirs[cr3]) <= tlb
      requires forall c :: c in tlb && c.page != p ==> c in Walk(dirs[cr3])
      modifies this`tlb
      ensures tlb == Walk(dirs[cr3])
    {
      tlb := (set c | c in tlb && c.page != p) + Walk(dirs[cr3]);
    }

    /** Writing cr3 drops every user translation. */
    method SetCr3(d: DirId)
      requires d in dirs
      modifies this`cr3, this`tlb
      ensures cr3 == d && tlb == Walk(dirs[d])
    {
      cr3 := d;
      tlb := Walk(dirs[d]);
    }

    /** A write to a page table entry; the processor may cache it before it is told. */
    method SetPte(d: DirId, p: Page, pte: Pte)
      requires d in dirs && cr3 in dirs
      modifies this`dirs, this`tlb
      ensures dirs == old(dirs)[d := WithPte(old(dirs)[d], p, pte)]
      ensures tlb == old(tlb) + (if d == cr3 then Walk(dirs[d]) else {})
    {
      dirs := dirs[d := WithPte(dirs[d], p, pte)];
      if d == cr3 {
        tlb := tlb + Walk(dirs[d]);
      }
    }

    method ClearPte(d: DirId, p: Page)
      requires d in dirs && cr3 in dirs
      modifies this`dirs
      ensures dirs == old(dirs)[d := old(dirs)[d] - {p}]
    {
      dirs := dirs[d := dirs[d] - {p}];
    }

    /** The frame an access to a page reaches: some cached translation's. */
    method Translate(p: Page) returns (c: Cached)
      requires exists e :: e in tlb && e.page == p
      ensures c in tlb && c.page == p
    {
      c :| c in tlb && c.page == p;
    }

    // ------------------------------------------------------------------ one page

    /** unallocate_frame */
    method UnallocateFrame(d: DirId, p: Page)
      requires Ready() && cr3 in dirs && tlb == Walk(dirs[cr3]) && d in dirs && p in dirs[d]
      requires d == cr3 && (dirs[d][p].frame == ZERO_FRAME || dirs[d][p].frame in Used(phys.View()))
      modifies this`dirs, this`tlb, phys, phys.data
      ensures Ready() && (phys.data == old(phys.data) || fresh(phys.data))
      ensures dirs == old(dirs)[d := old(dirs)[d] - {p}] && tlb == Walk(dirs[cr3])
      ensures Frames(old(phys.View()), phys.View(), {}, FrameSet(old(dirs)[d][p]))
      ensures old(dirs)[d][p].frame == ZERO_FRAME ==> phys.View() == old(phys.View())
    {
      var frame := dirs[d][p].frame;
      ghost var a := phys.View();
      if frame != ZERO_FRAME {
        var room: bool := *;
        PutIs(a, frame, room);
        phys.Physfree(frame, room);
      }
      ClearPte(d, p);
      WalkIs(old(dirs)[d]);
      WalkIs(dirs[d]);
      InvalidateTlb(p);
    }

    /** add_new_pt_to_pd for a table that is absent: kernel memory may not have one. */
    method AddNewPt(d: DirId, p: Page) returns (ok: bool)
      requires d in tables
      modifies this`tables
      ensures tables == if ok then old(tables)[d := old(tables)[d] + {PdIndex(p)}] else old(tables)
    {
      ok := *;
      if ok {
        tables := tables[d := tables[d] + {PdIndex(p)}];
      }
    }

    /** allocate_user_zero_frame on the current directory */
    method AllocateUserZeroFrame(p: Page, mark: Mark) returns (ok: bool)
      requires cr3 in dirs && cr3 in tables && tlb == Walk(dirs[cr3])
      modifies this`dirs, this`tables, this`tlb
      ensures cr3 in dirs && cr3 in tables && tlb == Walk(dirs[cr3])
      ensures ok ==> p !in old(dirs)[cr3] && dirs == old(dirs)[cr3 := WithPte(old(dirs)[cr3], p, Pte(ZERO_FRAME, false, mark))]
      ensures !ok ==> dirs == old(dirs) && (p in dirs[cr3] || PdIndex(p) !in old(tables)[cr3])
      ensures tables == old(tables) || tables == old(tables)[cr3 := old(tables)[cr3] + {PdIndex(p)}]
      ensures ok ==> PdIndex(p) in tables[cr3]
    {
      if PdIndex(p) !in tables[cr3] {
        var added := AddNewPt(cr3, p);
        if !added {
          return false;
        }
        InvalidateTlb(p);
      }
      if p in dirs[cr3] {
        return false;
      }
      SetPte(cr3, p, Pte(ZERO_FRAME, false, mark));
      WalkIs(old(dirs)[cr3]);
      WalkIs(dirs[cr3]);
      InvalidateTlb(p);
      return true;
    }

    // ------------------------------------------------------------------ new_pages and remove_pages

    /** is_user_pointer_allocated, on a page number that may have wrapped. */
    method IsUserPointerAllocated(p: nat) returns (ok: bool)
      requires cr3 in dirs
      ensures ok == Allocated(dirs[cr3], nullMapped, p)
    {
      var q: Page := p % NUM_PAGES;
      if q < FIRST_PAGE {
        ok := q != 0 || nullMapped;
      } else {
        ok := q in dirs[cr3];
      }
    }

    method AnyAllocated(b: nat, n: nat) returns (any: bool)
      requires cr3 in dirs
      ensures any == Overlaps(dirs[cr3], nullMapped, b, b + n)
    {
      var i := 0;
      while i < n
        invariant 0 <= i <= n
        invariant forall q :: b <= q < b + i ==> !Allocated(dirs[cr3], nullMapped, q)
      {
        var taken := IsUserPointerAllocated(b + i);
        if taken {
          return true;
        }
        i := i + 1;
      }
      return false;
    }

    /** The zero frames of the pages from b up to e go again. */
    method RollBack(b: nat, e: nat, ghost d: Dir)
      requires Ready() && cr3 in dirs && tlb == Walk(dirs[cr3]) && b <= e <= NUM_PAGES
      requires RunsFrom(d, b, b, e, dirs[cr3])
      modifies this`dirs, this`tlb, phys, phys.data
      ensures Ready() && (phys.data == old(phys.data) || fresh(phys.data))
      ensures dirs == old(dirs)[cr3 := d] && tlb == Walk(dirs[cr3])
      ensures SameFrames(old(phys.View()), phys.View())
    {
      var j := b;
      while j < e
        invariant b <= j <= e && Ready() && (phys.data == old(phys.data) || fresh(phys.data))
        invariant cr3 in dirs && dirs == old(dirs)[cr3 := dirs[cr3]] && tlb == Walk(dirs[cr3])
        invariant RunsFrom(d, b, j, e, dirs[cr3])
        invariant SameFrames(old(phys.View()), phys.View())
      {
        RunsFront(d, b, j, e, dirs[cr3]);
        UnallocateFrame(cr3, j);
        j := j + 1;
      }
      RunsNone(d, b, e, dirs[cr3]);
    }

    /** The checks of _new_pages. */
    method MayFill(base: nat, len: int) returns (ok: bool)
      requires Ready() && cr3 in dirs
      ensures ok == !Refused(Snapshot(), base, len)
      ensures Inv(Snapshot()) && base / PAGE_SIZE < NUM_PAGES ==> ok == Outcomes.Grantable(Snapshot(), base, len)
    {
      if Inv(Snapshot()) {
        Outcomes.RefusedIs(Snapshot(), base, len);
      }
      if base < USER_MEM_START || base % PAGE_SIZE != 0 || len <= 0 || len % PAGE_SIZE != 0 {
        return false;
      }
      var numFree := phys.NumFreePhysFrames();
      FreeSize(phys.View());
      if numFree < len / PAGE_SIZE {
        return false;
      }
      var any := AnyAllocated(base / PAGE_SIZE, len / PAGE_SIZE);
      return !any;
    }

    /** allocate_user_zero_frame on page 0, when the addresses of a range wrap: its page table is the kernel's. */
    method AllocateNullPage() returns (ok: bool)
      modifies this`nullMapped
      ensures ok == !old(nullMapped) && nullMapped
    {
      ok := !nullMapped;
      nullMapped := true;
    }

    /** _new_pages */
    method NewPages(base: nat, len: int) returns (r: Result)
      requires Ready() && cr3 in dirs && cr3 in tables && tlb == Walk(dirs[cr3])
      requires base / PAGE_SIZE < NUM_PAGES
      modifies this, phys, phys.data
      ensures Ready() && (phys.data == old(phys.data) || fresh(phys.data))
      ensures NewPagesStep(old(Snapshot()), base, len, Snapshot(), r)
      ensures Inv(old(Snapshot())) && r == Ok ==> Outcomes.Grantable(old(Snapshot()), base, len)
      ensures Inv(old(Snapshot())) && r == Fail && Outcomes.HasTables(old(Snapshot()), base, len)
              ==> !Outcomes.Grantable(old(Snapshot()), base, len)
    {
      ghost var s := Snapshot();
      var ok := MayFill(base, len);
      if !ok {
        return Fail;
      }
      RangeBelow(s, base, len);
      ok := Fill(base / PAGE_SIZE, base / PAGE_SIZE + len / PAGE_SIZE);
      r := if ok then Ok else Fail;
      if Inv(s) {
        Outcomes.NewPagesAnswers(s, base, len, Snapshot(), r);
      }
    }

    /** The allocation loop of _new_pages and, when a page cannot be had, its rollback. */
    method Fill(b: nat, e: nat) returns (ok: bool)
      requires Ready() && cr3 in dirs && cr3 in tables && tlb == Walk(dirs[cr3])
      requires FIRST_PAGE <= b < NUM_PAGES && b < e <= NUM_PAGES + 1 && !Overlaps(dirs[cr3], nullMapped, b, e)
      modifies this, phys, phys.data
      ensures Ready() && (phys.data == old(phys.data) || fresh(phys.data))
      ensures FillStep(old(Snapshot()), b, e, Snapshot(), if ok then Ok else Fail)
    {
      ghost var s, d := Snapshot(), dirs[cr3];
      RangeClear(d, nullMapped, b, e);
      NullClear(d, nullMapped, b, e);
      var i;
      ok, i := FillUpTo(b, e);
      if ok {
        FilledAll(s, b, e, Snapshot());
      } else {
        RollBack(b, i, d);
      }
    }

    /** The loop; `i` is the page that could not be had.  The last address may have wrapped to 0. */
    method FillUpTo(b: nat, e: nat) returns (ok: bool, i: nat)
      requires Ready() && cr3 in dirs && cr3 in tables && tlb == Walk(dirs[cr3])
      requires b < NUM_PAGES && b < e <= NUM_PAGES + 1 && (e > NUM_PAGES ==> !nullMapped)
      requires forall p: Page :: b <= p < e ==> p !in dirs[cr3]
      modifies this`dirs, this`tables, this`tlb, this`nullMapped
      ensures Ready() && b <= i <= e && Filling(old(Snapshot()), Snapshot(), b, i)
      ensures if ok then i == e else i < e && i < NUM_PAGES && NoTable(old(Snapshot()), i)
    {
      ghost var s := Snapshot();
      RunsStart(dirs[cr3], b);
      i := b;
      while i < e
        invariant b <= i <= e && Ready() && Filling(s, Snapshot(), b, i)
      {
        ok := FillOne(s, b, i);
        if !ok {
          return;
        }
        i := i + 1;
      }
      ok := true;
    }

    /** One turn of the loop. */
    method FillOne(ghost s: State, b: nat, i: nat) returns (ok: bool)
      requires Ready() && b <= i <= NUM_PAGES && b < NUM_PAGES && Filling(s, Snapshot(), b, i)
      requires if i < NUM_PAGES then i !in s.dirs[s.cur] else !s.nullMapped
      modifies this`dirs, this`tables, this`tlb, this`nullMapped
      ensures Ready() && Filling(s, Snapshot(), b, if ok then i + 1 else i)
      ensures !ok ==> i < NUM_PAGES && NoTable(s, i)
    {
      ghost var s1 := Snapshot();
      if i < NUM_PAGES {
        ok := AllocateUserZeroFrame(i, if i == b then Base else Continue);
        if ok {
          FilledNext(s, s1, b, i, Snapshot());
        }
      } else {
        ok := AllocateNullPage();
        FilledSame(s, s1, b, NUM_PAGES, Snapshot());
      }
    }

    /** remove_pages */
    method RemovePages(base: nat) returns (r: Result)
      requires Ready() && Inv(Snapshot()) && cr3 in dirs && cr3 in tables && tlb == Walk(dirs[cr3])
      requires base / PAGE_SIZE < NUM_PAGES
      modifies this`dirs, this`tlb, this`nullMapped, phys, phys.data
      ensures Ready() && (phys.data == old(phys.data) || fresh(phys.data))
      ensures RemovePagesStep(old(Snapshot()), base, Snapshot(), r)
    {
      if base < USER_MEM_START || base % PAGE_SIZE != 0 {
        return Fail;
      }
      var p: Page := base / PAGE_SIZE;
      if p !in dirs[cr3] || dirs[cr3][p].mark != Base {
        return Fail;
      }
      ghost var s := Snapshot();
      FramesApart(s, cr3);
      RemoveRun(p);
      RemovedIs(s, base, Snapshot());
      return Ok;
    }

    /** The two parts of remove_pages that free frames: the first page, then those that continue it. */
    method RemoveRun(p: Page)
      requires Ready() && cr3 in dirs && tlb == Walk(dirs[cr3])
      requires p in dirs[cr3] && Apart(dirs[cr3], phys.View())
      modifies this`dirs, this`tlb, this`nullMapped, phys, phys.data
      ensures Ready() && (phys.data == old(phys.data) || fresh(phys.data))
      ensures RunGone(old(Snapshot()), Snapshot(), p)
    {
      ghost var s := Snapshot();
      UnallocateFrame(cr3, p);
      RemovedFirst(s, p, Snapshot());
      var curr := RemoveRest(s, p);
      RemovingEnd(s, Snapshot(), p, curr);
    }

    /** The address behind the last page is that of page 0, and page 1 continues nothing. */
    method RemoveRest(ghost s: State, p: Page) returns (curr: nat)
      requires Ready() && RemovingTo(s, Snapshot(), p, p + 1)
      modifies this`dirs, this`tlb, this`nullMapped, phys, phys.data
      ensures Ready() && (phys.data == old(phys.data) || fresh(phys.data))
      ensures RemovingTo(s, Snapshot(), p, curr) && p < curr <= NUM_PAGES + 1 && !ContinuesAt(curr)
    {
      curr := p + 1;
      while ContinuesAt(curr)
        invariant p < curr <= NUM_PAGES + 1 && Ready() && (phys.data == old(phys.data) || fresh(phys.data))
        invariant RemovingTo(s, Snapshot(), p, curr)
        decreases NUM_PAGES + 1 - curr
      {
        RemoveNext(s, p, curr);
        curr := curr + 1;
      }
    }

    predicate ContinuesAt(curr: nat)
      reads this
    {
      if curr < NUM_PAGES then cr3 in dirs && curr in dirs[cr3] && dirs[cr3][curr].mark == Continue
      else curr == NUM_PAGES && nullMapped
    }

    /** One turn of the loop of remove_pages. */
    method RemoveNext(ghost s: State, p: Page, curr: nat)
      requires Ready() && RemovingTo(s, Snapshot(), p, curr) && p < curr && ContinuesAt(curr)
      modifies this`dirs, this`tlb, this`nullMapped, phys, phys.data
      ensures Ready() && (phys.data == old(phys.data) || fresh(phys.data))
      ensures RemovingTo(s, Snapshot(), p, curr + 1) && curr <= NUM_PAGES
    {
      ghost var s1 := Snapshot();
      if curr < NUM_PAGES {
        RemovingNext(s, s1, p, curr);
        UnallocateFrame(cr3, curr);
        RemovedNext(s, s1, p, curr, Snapshot());
      } else {
        nullMapped := false;
        RemovingNull(s, s1, p, Snapshot());
      }
    }

    // ------------------------------------------------------------------ page faults

    /** allocate_frame */
    method AllocateFrame(d: DirId, p: Page, writable: bool, mark: Mark) returns (ok: bool)
      requires Ready() && cr3 in dirs && d in dirs
      modifies this`dirs, this`tlb, phys
      ensures Ready() && phys.data == old(phys.data)
      ensures AllocStep(old(Snapshot()), d, p, writable, mark, Snapshot(), ok)
    {
      if p in dirs[d] {
        return dirs[d][p].writable == writable && dirs[d][p].mark == mark;
      }
      TakeFrames(phys.View());
      var frame := phys.Physalloc();
      if frame.None? {
        return false;
      }
      SetPte(d, p, Pte(frame.value, writable, mark));
      return true;
    }

    /** One turn of allocate_region, whose page table is there. */
    method AllocateRegionPage(d: DirId, p: Page, writable: bool) returns (r: Result)
      requires Ready() && cr3 in dirs && tlb == Walk(dirs[cr3]) && d in dirs && d in tables
      requires FIRST_PAGE <= p && PdIndex(p) in tables[d]
      modifies this`dirs, this`tlb, phys
      ensures Ready() && phys.data == old(phys.data)
      ensures AllocateFrameStep(old(Snapshot()), d, p, writable, Snapshot(), r)
    {
      ghost var s := Snapshot();
      var ok := AllocateFrame(d, p, writable, Plain);
      if ok && p !in s.dirs[d] {
        RegionPage(s, d, p, writable, Snapshot());
      }
      r := if ok then Ok else Fail;
    }

    /** A store of a whole page through the translation cache. */
    method StorePage(p: Page, c: Content)
      requires Reaches(tlb, p, dirs, cr3, true)
      modifies this`mem
      ensures mem == old(mem)[dirs[cr3][p].frame := c]
    {
      var e := Translate(p);
      mem := mem[e.frame := c];
    }

    method LoadPage(p: Page) returns (c: Content)
      requires Reaches(tlb, p, dirs, cr3, false) && dirs[cr3][p].frame in mem
      ensures c == mem[dirs[cr3][p].frame]
    {
      var e := Translate(p);
      c := mem[e.frame];
    }

    /** zero_page_pf_handler */
    method ZeroPagePfHandler(p: Page) returns (ok: bool)
      requires Ready() && cr3 in dirs && tlb == Walk(dirs[cr3])
      modifies this`dirs, this`tlb, this`mem, phys, phys.data
      ensures Ready() && (phys.data == old(phys.data) || fresh(phys.data))
      ensures HandlerStep(old(Snapshot()), p, Snapshot(), ok)
    {
      if p !in dirs[cr3] || dirs[cr3][p].frame != ZERO_FRAME {
        return false;
      }
      ghost var s := Snapshot();
      var mark := dirs[cr3][p].mark;
      UnallocateFrame(cr3, p);
      ghost var s1 := Snapshot();
      ok := AllocateFrame(cr3, p, true, mark);
      if !ok {
        return false;
      }
      Reached(s, s1, p, mark, Snapshot());
      InvalidateTlb(p);
      StorePage(p, ZeroPage());
    }

    // ------------------------------------------------------------------ accesses of a program

    /** A read: whatever translation is cached, else the tables, else a fault nobody repairs. */
    method UserRead(addr: nat) returns (r: Result)
      requires Ready() && Inv(Snapshot()) && addr < NUM_PAGES * PAGE_SIZE && cr3 in dirs
      ensures ReadStep(Snapshot(), addr, Snapshot(), r)
    {
      var p: Page := addr / PAGE_SIZE;
      ViewIs(Snapshot());
      PagesSized(Snapshot());
      if p !in dirs[cr3] {
        if p == 0 && nullMapped {
          return Value(mem[ZERO_FRAME][addr % PAGE_SIZE]);
        }
        return Fault;
      }
      WalkReaches(dirs, cr3, p, false);
      var c := LoadPage(p);
      return Value(c[addr % PAGE_SIZE]);
    }

    /** A write: one fault may be repaired by the handler, then it is tried again. */
    method UserWrite(addr: nat, v: Byte) returns (r: Result)
      requires Ready() && Inv(Snapshot()) && addr < NUM_PAGES * PAGE_SIZE && cr3 in dirs
      modifies this`dirs, this`tlb, this`mem, phys, phys.data
      ensures Ready() && (phys.data == old(phys.data) || fresh(phys.data))
      ensures WriteStep(old(Snapshot()), addr, v, Snapshot(), r)
    {
      var p: Page := addr / PAGE_SIZE;
      ghost var s := Snapshot();
      ViewIs(s);
      PagesSized(s);
      if p !in dirs[cr3] || !dirs[cr3][p].writable {
        var ok := ZeroPagePfHandler(p);
        if !ok {
          HandlerFails(s, addr, v, Snapshot());
          return Fault;
        }
      }
      ghost var s1 := Snapshot();
      WalkReaches(dirs, cr3, p, true);
      var c := LoadPage(p);
      StorePage(p, c[addr % PAGE_SIZE := v]);
      WriteDone(s, addr, v, s1, Snapshot());
      return Ok;
    }
  }

  lemma WalkIs(d: Dir)
    ensures forall c {:trigger c in Walk(d)} ::
              c in Walk(d) <==> c.page in d && c == Cached(c.page, d[c.page].frame, d[c.page].writable)
  {
  }

  function WithPte(d: Dir, p: Page, pte: Pte): Dir {
    d[p := pte]
  }

  function FrameSet(pte: Pte): set<Frame> {
    if pte.frame == ZERO_FRAME then {} else {pte.frame}
  }

  /** d' is d with the part of a new run from lo up to hi, where d has no page from b on. */
  ghost predicate RunsFrom(d: Dir, b: nat, lo: nat, hi: nat, d': Dir) {
    && (forall p: Page :: b <= p < hi ==> p !in d)
    && (forall p: Page :: p in d' <==> p in d || lo <= p < hi)
    && (forall p: Page :: p in d ==> d'[p] == d[p])
    && (forall p: Page :: lo <= p < hi ==> d'[p] == Pte(ZERO_FRAME, false, if p == b then Base else Continue))
  }

  lemma RunsStart(d: Dir, b: nat)
    ensures RunsFrom(d, b, b, b, d)
  {
  }

  lemma RunsFront(d: Dir, b: nat, lo: Page, hi: nat, d': Dir)
    requires RunsFrom(d, b, lo, hi, d') && b <= lo < hi <= NUM_PAGES
    ensures lo in d' && d'[lo].frame == ZERO_FRAME && RunsFrom(d, b, lo + 1, hi, d' - {lo})
  {
  }

  lemma RunsNone(d: Dir, b: nat, hi: nat, d': Dir)
    requires RunsFrom(d, b, hi, hi, d')
    ensures d' == d
  {
  }

  /** The state after the pages from b up to i were allocated. */
  ghost predicate Filled(s: State, s': State, b: nat, i: nat) {
    && s.cur in s.dirs && s.cur in s.tables && s'.cur == s.cur && s.cur in s'.dirs && s.cur in s'.tables
    && s'.dirs == s.dirs[s.cur := s'.dirs[s.cur]] && RunsFrom(s.dirs[s.cur], b, b, i, s'.dirs[s.cur])
    && s'.tlb == Walk(s'.dirs[s.cur]) && s'.mem == s.mem
    && s'.tables == s.tables[s.cur := s'.tables[s.cur]] && s.tables[s.cur] <= s'.tables[s.cur]
    && (forall p: Page :: b <= p < i ==> PdIndex(p) in s'.tables[s.cur])
  }

  lemma FilledNext(s: State, s1: State, b: nat, i: Page, s2: State)
    requires Filled(s, s1, b, i) && b <= i && s2.cur == s.cur && s2.mem == s1.mem
    requires i !in s.dirs[s.cur]
    requires s2.dirs == s1.dirs[s.cur := WithPte(s1.dirs[s.cur], i, Pte(ZERO_FRAME, false, if i == b then Base else Continue))]
    requires s2.tlb == Walk(s2.dirs[s.cur]) && s.cur in s2.tables
    requires s2.tables == s1.tables || s2.tables == s1.tables[s.cur := s1.tables[s.cur] + {PdIndex(i)}]
    requires PdIndex(i) in s2.tables[s.cur]
    ensures Filled(s, s2, b, i + 1)
  {
  }

  lemma FilledSame(s: State, s1: State, b: nat, i: nat, s2: State)
    requires Filled(s, s1, b, i) && s2 == s1.(nullMapped := s2.nullMapped)
    ensures Filled(s, s2, b, i)
  {
  }

  /** Page 0 is free when the range reaches it. */
  lemma NullClear(d: Dir, nullMapped: bool, b: nat, e: nat)
    requires !Overlaps(d, nullMapped, b, e) && b < NUM_PAGES
    ensures e > NUM_PAGES ==> !nullMapped
  {
    assert nullMapped ==> Allocated(d, nullMapped, NUM_PAGES);
  }

  ghost predicate Filling(s: State, s': State, b: nat, i: nat) {
    Filled(s, s', b, Within(i)) && s'.nullMapped == (s.nullMapped || i > NUM_PAGES)
  }

  lemma FilledAll(s: State, b: nat, e: nat, s': State)
    requires Filling(s, s', b, e) && b < NUM_PAGES && b < e && Valid(s.alloc) && s'.alloc == s.alloc
    ensures FillStep(s, b, e, s', Ok)
  {
    assert s'.dirs[s.cur] == s.dirs[s.cur] + ZeroRun(b, Within(e));
  }

  /** A range that is not refused ends in user memory or with page 0. */
  lemma RangeBelow(s: State, base: nat, len: int)
    requires s.cur in s.dirs && !Refused(s, base, len) && base / PAGE_SIZE < NUM_PAGES
    ensures FIRST_PAGE <= base / PAGE_SIZE < base / PAGE_SIZE + len / PAGE_SIZE <= NUM_PAGES + 1
  {
    if base / PAGE_SIZE + len / PAGE_SIZE > NUM_PAGES + 1 {
      WrapRefused(s.dirs[s.cur], s.nullMapped, base / PAGE_SIZE, len / PAGE_SIZE);
    }
  }

  // ------------------------------------------------------------------ frames

  /** The pages of a directory are on frames in use, each on its own. */
  ghost predicate Apart(d: Dir, a: Alloc) {
    && (forall p :: p in d ==> d[p].frame == ZERO_FRAME || d[p].frame in Used(a))
    && (forall p, q :: p in d && q in d && d[p].frame == d[q].frame && d[p].frame != ZERO_FRAME ==> p == q)
  }

  lemma FramesApart(s: State, d: DirId)
    requires Inv(s) && d in s.dirs
    ensures Apart(s.dirs[d], s.alloc)
  {
    var o: Owners :| InvAt(s, o);
    forall p | p in s.dirs[d]
      ensures s.dirs[d][p].frame == ZERO_FRAME || (s.dirs[d][p].frame in o && o[s.dirs[d][p].frame] == (d, p))
    {
      assert PteOk(s, o, d, p);
    }
  }

  lemma FramesInFirst(d: Dir, p: Page)
    requires p in d
    ensures FramesIn(d, p, p + 1) == FrameSet(d[p])
  {
  }

  lemma FramesInNext(d: Dir, b: nat, e: Page)
    requires e in d && b <= e
    ensures FramesIn(d, b, e + 1) == FramesIn(d, b, e) + FrameSet(d[e])
  {
  }

  lemma NotAmong(d: Dir, b: nat, e: Page)
    requires e in d && forall p, q :: p in d && q in d && d[p].frame == d[q].frame && d[p].frame != ZERO_FRAME ==> p == q
    ensures d[e].frame != ZERO_FRAME ==> d[e].frame !in FramesIn(d, b, e)
  {
  }

  /** physalloc in terms of the frames in use. */
  lemma TakeFrames(a: Alloc)
    requires Valid(a)
    ensures Valid(Take(a).1)
    ensures Take(a).0 == None <==> NumFree(a) == 0
    ensures match Take(a).0
            case None => Take(a).1 == a
            case Some(f) => f in Free(a) && f != ZERO_FRAME && Frames(a, Take(a).1, {f}, {})
  {
    TakeIs(a);
    FreeSize(a);
  }

  lemma GiveMore(a: Alloc, a1: Alloc, a2: Alloc, g1: set<Frame>, g2: set<Frame>)
    requires Frames(a, a1, {}, g1) && Frames(a1, a2, {}, g2)
    ensures Frames(a, a2, {}, g1 + g2)
  {
  }

  lemma TakeMore(a: Alloc, a1: Alloc, a2: Alloc, t1: set<Frame>, t2: set<Frame>)
    requires Frames(a, a1, t1, {}) && Frames(a1, a2, t2, {})
    ensures Frames(a, a2, t1 + t2, {})
  {
  }

  lemma GiveBack(a: Alloc, a1: Alloc, a2: Alloc, t: set<Frame>)
    requires Frames(a, a1, t, {}) && Frames(a1, a2, {}, t)
    ensures SameFrames(a, a2)
  {
  }

  // ------------------------------------------------------------------ remove_pages

  /** The pages from p up to curr are gone, and their frames. */
  ghost predicate Removing(s: State, s': State, p: Page, curr: nat) {
    && s.cur in s.dirs && s'.cur == s.cur && s.cur in s'.dirs && s'.tables == s.tables && s'.mem == s.mem
    && s'.dirs == s.dirs[s.cur := WithoutPages(s.dirs[s.cur], p, curr)]
    && s'.tlb == Walk(s'.dirs[s.cur])
    && Frames(s.alloc, s'.alloc, {}, FramesIn(s.dirs[s.cur], p, curr))
    && Apart(s.dirs[s.cur], s.alloc) && p in s.dirs[s.cur]
  }

  lemma RemovedFirst(s: State, p: Page, s': State)
    requires s.cur in s.dirs && p in s.dirs[s.cur] && Apart(s.dirs[s.cur], s.alloc)
    requires s'.cur == s.cur && s'.tables == s.tables && s'.mem == s.mem
             && s'.dirs == s.dirs[s.cur := s.dirs[s.cur] - {p}]
    requires s'.tlb == Walk(s'.dirs[s.cur]) && Frames(s.alloc, s'.alloc, {}, FrameSet(s.dirs[s.cur][p]))
    ensures Removing(s, s', p, p + 1)
  {
    FramesInFirst(s.dirs[s.cur], p);
    assert s.dirs[s.cur] - {p} == WithoutPages(s.dirs[s.cur], p, p + 1);
  }

  lemma RemovingNext(s: State, s1: State, p: Page, curr: Page)
    requires Removing(s, s1, p, curr) && p < curr && curr in s1.dirs[s.cur]
    ensures curr in s.dirs[s.cur] && s1.dirs[s.cur][curr] == s.dirs[s.cur][curr]
    ensures s1.dirs[s.cur][curr].frame == ZERO_FRAME || s1.dirs[s.cur][curr].frame in Used(s1.alloc)
  {
    NotAmong(s.dirs[s.cur], p, curr);
  }

  lemma RemovedNext(s: State, s1: State, p: Page, curr: Page, s2: State)
    requires Removing(s, s1, p, curr) && p < curr && curr in s1.dirs[s.cur] && curr in s.dirs[s.cur]
    requires s1.dirs[s.cur][curr] == s.dirs[s.cur][curr]
    requires s2.cur == s.cur && s2.tables == s.tables && s2.mem == s.mem
    requires s2.dirs == s1.dirs[s.cur := s1.dirs[s.cur] - {curr}]
    requires s2.tlb == Walk(s2.dirs[s.cur]) && Frames(s1.alloc, s2.alloc, {}, FrameSet(s1.dirs[s.cur][curr]))
    ensures Removing(s, s2, p, curr + 1)
  {
    var d := s.dirs[s.cur];
    FramesInNext(d, p, curr);
    GiveMore(s.alloc, s1.alloc, s2.alloc, FramesIn(d, p, curr), FrameSet(d[curr]));
    assert WithoutPages(d, p, curr) - {curr} == WithoutPages(d, p, curr + 1);
  }

  ghost predicate ContinuedTo(d: Dir, p: Page, curr: nat) {
    forall q: Page :: p < q < curr ==> q in d && d[q].mark == Continue
  }

  ghost predicate RemovingTo(s: State, s': State, p: Page, curr: nat) {
    && Removing(s, s', p, Within(curr)) && s'.nullMapped == (s.nullMapped && curr <= NUM_PAGES)
    && ContinuedTo(s.dirs[s.cur], p, curr)
  }

  lemma RemovingNull(s: State, s1: State, p: Page, s': State)
    requires Removing(s, s1, p, NUM_PAGES) && s' == s1.(nullMapped := false)
    ensures Removing(s, s', p, NUM_PAGES)
  {
  }

  /** The whole run is gone, and page 0 if the run ended before it. */
  ghost predicate RunGone(s: State, s': State, p: Page)
    requires s.cur in s.dirs
  {
    var e := RunEnd(s.dirs[s.cur], p + 1);
    Removing(s, s', p, e) && s'.nullMapped == (s.nullMapped && e != NUM_PAGES)
  }

  lemma RemovingEnd(s: State, s': State, p: Page, curr: nat)
    requires RemovingTo(s, s', p, curr) && p < curr <= NUM_PAGES + 1
    requires if curr < NUM_PAGES then !(curr in s'.dirs[s.cur] && s'.dirs[s.cur][curr].mark == Continue)
             else !(curr == NUM_PAGES && s'.nullMapped)
    ensures RunGone(s, s', p)
  {
    if curr < NUM_PAGES {
      assert curr in WithoutPages(s.dirs[s.cur], p, curr) <==> curr in s.dirs[s.cur];
    }
    RunEndIs(s.dirs[s.cur], p + 1, Within(curr));
  }

  lemma RemovedIs(s: State, base: nat, s': State)
    requires s.cur in s.dirs && s.cur in s.tables && !RemoveRefused(s.dirs[s.cur], base)
    requires RunGone(s, s', base / PAGE_SIZE)
    ensures RemovePagesStep(s, base, s', Ok)
  {
    assert s.tables[s.cur := s.tables[s.cur]] == s.tables;
  }

  // ------------------------------------------------------------------ page faults

  ghost predicate AllocStep(s: State, d: DirId, p: Page, w: bool, mark: Mark, s': State, ok: bool)
    requires d in s.dirs
  {
    if p in s.dirs[d] then s' == s && ok == (s.dirs[d][p].writable == w && s.dirs[d][p].mark == mark)
    else if NumFree(s.alloc) == 0 then s' == s && !ok
    else
      && ok && d in s'.dirs && p in s'.dirs[d]
      && var f := s'.dirs[d][p].frame;
         && s' == s.(dirs := s.dirs[d := WithPte(s.dirs[d], p, Pte(f, w, mark))], alloc := s'.alloc, tlb := s'.tlb)
         && s'.tlb == s.tlb + (if d == s.cur then Walk(s'.dirs[d]) else {})
         && f in Free(s.alloc) && Frames(s.alloc, s'.alloc, {f}, {})
  }

  /** The cache needs no flush for a page that was absent. */
  lemma RegionPage(s: State, d: DirId, p: Page, w: bool, s': State)
    requires s.cur in s.dirs && s.tlb == Walk(s.dirs[s.cur]) && d in s.dirs && d in s.tables
    requires FIRST_PAGE <= p && PdIndex(p) in s.tables[d] && p !in s.dirs[d]
    requires AllocStep(s, d, p, w, Plain, s', true)
    ensures AllocateFrameStep(s, d, p, w, s', Ok)
  {
    var f := s'.dirs[d][p].frame;
    assert WithPte(s.dirs[d], p, Pte(f, w, Plain)) == s.dirs[d][p := Pte(f, w, Plain)];
    WalkIs(s.dirs[d]);
    WalkIs(s'.dirs[d]);
    assert d == s.cur ==> Walk(s.dirs[d]) <= Walk(s'.dirs[d]);
    assert s.tables[d := s'.tables[d]] == s'.tables;
    assert OnlyDir(s, s', d, s.dirs[d][p := Pte(f, w, Plain)]);
  }

  /** The cache translates p, as the tables do. */
  ghost predicate Reaches(tlb: set<Cached>, p: Page, dirs: map<DirId, Dir>, cr3: DirId, toWrite: bool) {
    && cr3 in dirs && p in dirs[cr3]
    && (exists e :: e in tlb && e.page == p)
    && (forall e :: e in tlb && e.page == p ==> e.frame == dirs[cr3][p].frame && (toWrite ==> e.writable))
  }

  lemma WalkReaches(dirs: map<DirId, Dir>, cr3: DirId, p: Page, toWrite: bool)
    requires cr3 in dirs && p in dirs[cr3] && (toWrite ==> dirs[cr3][p].writable)
    ensures Reaches(Walk(dirs[cr3]), p, dirs, cr3, toWrite)
  {
    WalkIs(dirs[cr3]);
    assert Cached(p, dirs[cr3][p].frame, dirs[cr3][p].writable) in Walk(dirs[cr3]);
  }

  /** The page is writable on a frame that was free, full of zeros; nothing else changed. */
  ghost predicate FilledPage(s: State, s': State, p: Page)
    requires s.cur in s.dirs && p in s.dirs[s.cur]
  {
    && s.cur in s'.dirs && p in s'.dirs[s.cur]
    && var f := s'.dirs[s.cur][p].frame;
       && s' == s.(dirs := s.dirs[s.cur := WithPte(s.dirs[s.cur], p, Pte(f, true, s.dirs[s.cur][p].mark))],
                   mem := s.mem[f := ZeroPage()], tlb := Walk(s'.dirs[s.cur]), alloc := s'.alloc)
       && f in Free(s.alloc) && Frames(s.alloc, s'.alloc, {f}, {})
  }

  ghost predicate HandlerStep(s: State, p: Page, s': State, ok: bool)
    requires s.cur in s.dirs
  {
    if !(p in s.dirs[s.cur] && s.dirs[s.cur][p].frame == ZERO_FRAME) then !ok && s' == s
    else if NumFree(s.alloc) == 0 then
      !ok && s' == s.(dirs := s.dirs[s.cur := s.dirs[s.cur] - {p}], tlb := Walk(s.dirs[s.cur] - {p}), alloc := s'.alloc)
      && SameFrames(s.alloc, s'.alloc)
    else ok && FilledPage(s, s', p)
  }

  /** After the frame is in place the cache holds nothing but what the tables say of other pages. */
  lemma Reached(s: State, s1: State, p: Page, mark: Mark, s2: State)
    requires s.cur in s.dirs && p in s.dirs[s.cur] && mark == s.dirs[s.cur][p].mark
    requires s1 == s.(dirs := s.dirs[s.cur := s.dirs[s.cur] - {p}], tlb := Walk(s.dirs[s.cur] - {p}))
    requires AllocStep(s1, s.cur, p, true, mark, s2, true)
    ensures s.cur in s2.dirs && p in s2.dirs[s.cur] && s2.cur == s.cur
    ensures Walk(s2.dirs[s.cur]) <= s2.tlb && forall c :: c in s2.tlb && c.page != p ==> c in Walk(s2.dirs[s.cur])
    ensures Reaches(Walk(s2.dirs[s.cur]), p, s2.dirs, s.cur, true)
    ensures s2.dirs == s.dirs[s.cur := WithPte(s.dirs[s.cur], p, Pte(s2.dirs[s.cur][p].frame, true, mark))]
  {
    var d := s.dirs[s.cur];
    WalkIs(d - {p});
    WalkIs(s2.dirs[s.cur]);
    WalkReaches(s2.dirs, s.cur, p, true);
    assert WithPte(d - {p}, p, s2.dirs[s.cur][p]) == WithPte(d, p, s2.dirs[s.cur][p]);
  }

  // ------------------------------------------------------------------ accesses

  lemma PagesSized(s: State)
    requires Inv(s)
    ensures s.cur in s.dirs && s.cur in s.tables && s.tlb == Walk(s.dirs[s.cur])
    ensures forall p :: p in s.dirs[s.cur] ==>
              s.dirs[s.cur][p].frame in s.mem && |s.mem[s.dirs[s.cur][p].frame]| == PAGE_SIZE
    ensures ZERO_FRAME in s.mem && |s.mem[ZERO_FRAME]| == PAGE_SIZE
    ensures forall p :: p in s.dirs[s.cur] && s.dirs[s.cur][p].frame == ZERO_FRAME ==> !s.dirs[s.cur][p].writable
    ensures forall f {:trigger f in Free(s.alloc)} :: f in Free(s.alloc) ==> f in s.mem && |s.mem[f]| == PAGE_SIZE && f !in Used(s.alloc)
  {
    var o: Owners :| InvAt(s, o);
    assert MemOk(s, ZERO_FRAME);
    forall p | p in s.dirs[s.cur]
      ensures s.dirs[s.cur][p].frame in s.mem && |s.mem[s.dirs[s.cur][p].frame]| == PAGE_SIZE
      ensures s.dirs[s.cur][p].frame == ZERO_FRAME ==> !s.dirs[s.cur][p].writable
    {
      assert PteOk(s, o, s.cur, p) && MemOk(s, s.dirs[s.cur][p].frame);
    }
    forall f | f in Free(s.alloc)
      ensures f in s.mem && |s.mem[f]| == PAGE_SIZE && f !in Used(s.alloc)
    {
      FreeIsUser(s.alloc, f);
      assert MemOk(s, f);
    }
  }

  lemma HandlerFails(s: State, addr: nat, v: Byte, s': State)
    requires Inv(s) && s.cur in s.dirs && s.cur in s.tables && addr / PAGE_SIZE < NUM_PAGES
    requires var p := addr / PAGE_SIZE; p in s.dirs[s.cur] ==> !s.dirs[s.cur][p].writable
    requires HandlerStep(s, addr / PAGE_SIZE, s', false)
    ensures WriteStep(s, addr, v, s', Fault)
  {
    assert s.tables[s.cur := s.tables[s.cur]] == s.tables;
  }

  /** The store after the handler, if it was needed. */
  lemma WriteDone(s: State, addr: nat, v: Byte, s1: State, s2: State)
    requires Inv(s) && s.cur in s.dirs && s.cur in s.tables && addr / PAGE_SIZE < NUM_PAGES && s1.cur == s.cur
    requires var p := addr / PAGE_SIZE;
             && p in s.dirs[s.cur] && s.cur in s1.dirs && p in s1.dirs[s.cur]
             && (if s.dirs[s.cur][p].writable then s1 == s else HandlerStep(s, p, s1, true))
             && var f := s1.dirs[s.cur][p].frame;
                f in s1.mem && |s1.mem[f]| == PAGE_SIZE
                  && s2 == s1.(mem := s1.mem[f := s1.mem[f][addr % PAGE_SIZE := v]])
    ensures WriteStep(s, addr, v, s2, Ok)
  {
    var p: Page := addr / PAGE_SIZE;
    PagesSized(s);
    if !s.dirs[s.cur][p].writable {
      var f := s1.dirs[s.cur][p].frame;
      assert s.tables[s.cur := s.tables[s.cur]] == s.tables;
      assert Replaced(s, s2, p, f, ZeroPage()[addr % PAGE_SIZE := v]);
    }
  }
}
