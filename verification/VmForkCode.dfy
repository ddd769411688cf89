/** free_pd_memory and new_pd_from_parent as loops over tables and entries. */
module VmForkCode {
  import opened Seqs
  import opened PhysAlloc
  import opened PageTable
  import opened Vm
  import opened VmProofs
  import opened VmTheorems
  import opened VmCode

  // ------------------------------------------------------------------ free_pd_memory

  /** The pages of d below q are gone, and their frames; d is not the current directory. */
  ghost predicate Freeing(s: State, s': State, d: DirId, q: nat) {
    && d in s.dirs && d != s.cur && s'.cur == s.cur && s.cur in s.dirs && s'.tlb == s.tlb && s'.mem == s.mem
    && SameNull(s, s') && s'.dirs == s.dirs[d := WithoutPages(s.dirs[d], 0, q)]
    && Apart(s.dirs[d], s.alloc)
    && Frames(s.alloc, s'.alloc, {}, FramesIn(s.dirs[d], 0, q))
    && s'.tables.Keys == s.tables.Keys && (forall e :: e in s.tables && e != d ==> s'.tables[e] == s.tables[e])
  }

  lemma FreeingStart(s: State, d: DirId)
    requires d in s.dirs && d != s.cur && s.cur in s.dirs && Apart(s.dirs[d], s.alloc) && Valid(s.alloc)
    requires forall p :: p in s.dirs[d] ==> FIRST_PAGE <= p
    ensures Freeing(s, s, d, FIRST_PAGE)
  {
    assert WithoutPages(s.dirs[d], 0, FIRST_PAGE) == s.dirs[d];
    assert FramesIn(s.dirs[d], 0, FIRST_PAGE) == {};
  }

  /** An absent page changes nothing. */
  lemma FreeingSkip(s: State, s': State, d: DirId, q: nat, q': nat)
    requires Freeing(s, s', d, q) && q <= q' && forall p: Page :: q <= p < q' ==> p !in s.dirs[d]
    ensures Freeing(s, s', d, q')
  {
    assert WithoutPages(s.dirs[d], 0, q') == WithoutPages(s.dirs[d], 0, q);
    assert FramesIn(s.dirs[d], 0, q') == FramesIn(s.dirs[d], 0, q);
  }

  lemma FreeingPage(s: State, s1: State, d: DirId, q: Page)
    requires Freeing(s, s1, d, q)
    ensures d in s1.dirs && (q in s1.dirs[d] <==> q in s.dirs[d])
    ensures q in s.dirs[d] ==> s1.dirs[d][q] == s.dirs[d][q]
                               && (s.dirs[d][q].frame == ZERO_FRAME || s.dirs[d][q].frame in Used(s1.alloc))
  {
    if q in s.dirs[d] {
      NotAmong(s.dirs[d], 0, q);
    }
  }

  lemma FreeingNext(s: State, s1: State, d: DirId, q: Page, s2: State)
    requires Freeing(s, s1, d, q) && q in s.dirs[d]
    requires s2 == s1.(dirs := s1.dirs[d := s1.dirs[d] - {q}], alloc := s2.alloc)
    requires Frames(s1.alloc, s2.alloc, {}, FrameSet(s.dirs[d][q]))
    ensures Freeing(s, s2, d, q + 1)
  {
    var dir := s.dirs[d];
    FramesInNext(dir, 0, q);
    GiveMore(s.alloc, s1.alloc, s2.alloc, FramesIn(dir, 0, q), FrameSet(dir[q]));
    assert WithoutPages(dir, 0, q) - {q} == WithoutPages(dir, 0, q + 1);
  }

  lemma FreeingEnd(s: State, s': State, d: DirId)
    requires Freeing(s, s', d, NUM_PAGES)
    ensures s'.dirs == s.dirs[d := map[]] && Frames(s.alloc, s'.alloc, {}, FramesOf(s.dirs[d]))
  {
    assert WithoutPages(s.dirs[d], 0, NUM_PAGES) == map[];
    assert FramesIn(s.dirs[d], 0, NUM_PAGES) == FramesOf(s.dirs[d]);
  }

  /** One entry of free_pt_memory. */
  method FreeEntry(m: MemoryManager, d: DirId, q: Page, ghost s: State)
    requires m.Ready() && Freeing(s, m.Snapshot(), d, q)
    modifies m`dirs, m.phys, m.phys.data
    ensures m.Ready() && (m.phys.data == old(m.phys.data) || fresh(m.phys.data))
    ensures m.tables == old(m.tables) && Freeing(s, m.Snapshot(), d, q + 1)
  {
    ghost var s1 := m.Snapshot();
    FreeingPage(s, s1, d, q);
    if q !in m.dirs[d] {
      FreeingSkip(s, s1, d, q, q + 1);
      return;
    }
    var frame := m.dirs[d][q].frame;
    if frame != ZERO_FRAME {
      var room: bool := *;
      PutIs(m.phys.View(), frame, room);
      m.phys.Physfree(frame, room);
    }
    m.ClearPte(d, q);
    FreeingNext(s, s1, d, q, m.Snapshot());
  }

  /** free_pt_memory: every entry of the table whose first page is `first`. */
  method FreePtMemory(m: MemoryManager, d: DirId, first: nat, ghost s: State)
    requires m.Ready() && first + ENTRIES <= NUM_PAGES && Freeing(s, m.Snapshot(), d, first)
    modifies m`dirs, m.phys, m.phys.data
    ensures m.Ready() && (m.phys.data == old(m.phys.data) || fresh(m.phys.data))
    ensures m.tables == old(m.tables) && Freeing(s, m.Snapshot(), d, first + ENTRIES)
  {
    var q, end := first, first + ENTRIES;
    while q < end
      invariant first <= q <= end && m.Ready() && (m.phys.data == old(m.phys.data) || fresh(m.phys.data))
      invariant m.tables == old(m.tables) && Freeing(s, m.Snapshot(), d, q)
    {
      FreeEntry(m, d, q, s);
      q := q + 1;
    }
  }

  /** A user page lies in a table of its directory. */
  ghost predicate Tabled(d: Dir, t: set<nat>) {
    forall p :: p in d ==> FIRST_PAGE <= p && PdIndex(p) in t
  }

  /** free_pd_memory, then the page tables; the directory is left without user pages. */
  method FreePdMemory(m: MemoryManager, d: DirId)
    requires m.Ready() && d in m.dirs && d != m.cr3 && m.cr3 in m.dirs && d in m.tables
    requires Apart(m.dirs[d], m.phys.View()) && Tabled(m.dirs[d], m.tables[d])
    modifies m`dirs, m`tables, m.phys, m.phys.data
    ensures m.Ready() && (m.phys.data == old(m.phys.data) || fresh(m.phys.data))
    ensures m.dirs == old(m.dirs)[d := map[]]
    ensures Frames(old(m.phys.View()), m.phys.View(), {}, FramesOf(old(m.dirs)[d]))
    ensures m.tables.Keys == old(m.tables).Keys && forall e :: e in m.tables && e != d ==> m.tables[e] == old(m.tables)[e]
  {
    ghost var s := m.Snapshot();
    FreeingStart(s, d);
    var i := NUM_KERN_PAGE_TABLES;
    while i < ENTRIES
      invariant NUM_KERN_PAGE_TABLES <= i <= ENTRIES && m.Ready()
      invariant m.phys.data == old(m.phys.data) || fresh(m.phys.data)
      invariant Freeing(s, m.Snapshot(), d, i * ENTRIES)
      invariant d in m.tables && forall k :: i <= k && k in s.tables[d] ==> k in m.tables[d]
    {
      FreeTableAt(m, d, i, s);
      i := i + 1;
    }
    FreeingEnd(s, m.Snapshot(), d);
  }

  /** One turn of the outer loop. */
  method FreeTableAt(m: MemoryManager, d: DirId, i: nat, ghost s: State)
    requires m.Ready() && NUM_KERN_PAGE_TABLES <= i < ENTRIES && Freeing(s, m.Snapshot(), d, i * ENTRIES)
    requires d in s.tables && d in m.tables && Tabled(s.dirs[d], s.tables[d]) && (i in s.tables[d] ==> i in m.tables[d])
    modifies m`dirs, m`tables, m.phys, m.phys.data
    ensures m.Ready() && (m.phys.data == old(m.phys.data) || fresh(m.phys.data))
    ensures Freeing(s, m.Snapshot(), d, (i + 1) * ENTRIES) && d in m.tables && m.tables[d] == old(m.tables)[d] - {i}
  {
    if i in m.tables[d] {
      FreePtMemory(m, d, i * ENTRIES, s);
      m.tables := m.tables[d := m.tables[d] - {i}];
    } else {
      NoPages(s.dirs[d], s.tables[d], i);
      FreeingSkip(s, m.Snapshot(), d, i * ENTRIES, (i + 1) * ENTRIES);
    }
  }

  lemma NoPages(d: Dir, t: set<nat>, i: nat)
    requires Tabled(d, t) && i !in t
    ensures forall p: Page :: i * ENTRIES <= p < (i + 1) * ENTRIES ==> p !in d
  {
    forall p: Page | i * ENTRIES <= p < (i + 1) * ENTRIES
      ensures p !in d
    {
      assert PdIndex(p) == i;
    }
  }

  // ------------------------------------------------------------------ new_pd_from_parent

  /** One page of the copy. */
  ghost predicate CopyStep(s: State, c: DirId, p: Page, s': State, ok: bool)
    requires s.cur in s.dirs && c in s.dirs && p in s.dirs[s.cur] && s.dirs[s.cur][p].frame in s.mem
  {
    if NumFree(s.alloc) == 0 then !ok && s' == s
    else
      && ok && c in s'.dirs && p in s'.dirs[c]
      && var f, pte := s'.dirs[c][p].frame, s.dirs[s.cur][p];
         && s' == s.(dirs := s.dirs[c := WithPte(s.dirs[c], p, Pte(f, pte.writable, pte.mark))],
                     mem := s.mem[f := s.mem[pte.frame]], alloc := s'.alloc)
         && f in Free(s.alloc) && f != ZERO_FRAME && Frames(s.alloc, s'.alloc, {f}, {})
         && NumFree(s'.alloc) == NumFree(s.alloc) - 1
  }

  /** Through a buffer: read the page under the parent's directory, switch to the child's, write it, switch back. */
  method CopyThroughBuffer(m: MemoryManager, c: DirId, p: Page)
    requires m.cr3 in m.dirs && c in m.dirs && m.tlb == Walk(m.dirs[m.cr3])
    requires p in m.dirs[m.cr3] && p in m.dirs[c] && m.dirs[c][p].writable && m.dirs[m.cr3][p].frame in m.mem
    modifies m`tlb, m`mem, m`cr3
    ensures m.cr3 == old(m.cr3) && m.tlb == old(m.tlb)
    ensures m.mem == old(m.mem)[m.dirs[c][p].frame := old(m.mem)[m.dirs[m.cr3][p].frame]]
  {
    WalkReaches(m.dirs, m.cr3, p, false);
    var tempBuf := m.LoadPage(p);
    var parent := m.cr3;
    m.SetCr3(c);
    WalkReaches(m.dirs, c, p, true);
    m.StorePage(p, tempBuf);
    m.SetCr3(parent);
  }

  /** A frame for the child's page, mapped writable for the time of the copy. */
  method BackChild(m: MemoryManager, c: DirId, p: Page) returns (ok: bool)
    requires m.Ready() && m.cr3 in m.dirs && c in m.dirs && c != m.cr3
    modifies m`dirs, m`tlb, m.phys
    ensures m.Ready() && m.phys.data == old(m.phys.data) && m.tlb == old(m.tlb)
    ensures ok == (NumFree(old(m.phys.View())) != 0)
    ensures ok ==> NumFree(m.phys.View()) == NumFree(old(m.phys.View())) - 1
    ensures !ok ==> m.Snapshot() == old(m.Snapshot())
    ensures ok ==> exists f ::
              m.dirs == old(m.dirs)[c := WithPte(old(m.dirs)[c], p, Pte(f, true, Plain))]
              && f in Free(old(m.phys.View())) && f != ZERO_FRAME && Frames(old(m.phys.View()), m.phys.View(), {f}, {})
  {
    TakeFrames(m.phys.View());
    var frame := m.phys.Physalloc();
    if frame.None? {
      return false;
    }
    m.SetPte(c, p, Pte(frame.value, true, Plain));
    return true;
  }

  /** The child's entry gets the parent's flags after the copy. */
  method CopyPage(m: MemoryManager, c: DirId, p: Page) returns (ok: bool)
    requires m.Ready() && m.cr3 in m.dirs && c in m.dirs && c != m.cr3 && m.tlb == Walk(m.dirs[m.cr3])
    requires p in m.dirs[m.cr3] && p !in m.dirs[c] && m.dirs[m.cr3][p].frame in m.mem
    modifies m`dirs, m`tlb, m`mem, m`cr3, m.phys
    ensures m.Ready() && m.phys.data == old(m.phys.data)
    ensures CopyStep(old(m.Snapshot()), c, p, m.Snapshot(), ok)
  {
    ghost var d := m.dirs[c];
    ok := BackChild(m, c, p);
    if ok {
      CopyThroughBuffer(m, c, p);
      var flags := m.dirs[m.cr3][p];
      SetTwice(d, p, m.dirs[c][p], Pte(m.dirs[c][p].frame, flags.writable, flags.mark));
      m.SetPte(c, p, Pte(m.dirs[c][p].frame, flags.writable, flags.mark));
    }
  }

  lemma SetTwice(d: Dir, p: Page, x: Pte, y: Pte)
    ensures WithPte(WithPte(d, p, x), p, y) == WithPte(d, p, y)
  {
  }

  /** The pages of the parent below q are copied into c. */
  ghost predicate Copying(s: State, s': State, c: DirId, q: nat) {
    && s.cur in s.dirs && c !in s.dirs && s'.cur == s.cur && s'.tlb == Walk(s.dirs[s.cur])
    && c in s'.dirs && s'.dirs == s.dirs[c := s'.dirs[c]] && c in s'.tables && s'.tables == s.tables[c := s'.tables[c]]
    && (forall p: Page :: p in s'.dirs[c] <==> p in s.dirs[s.cur] && p < q)
    && DistinctFrames(s'.dirs[c])
    && (forall p: Page {:trigger Copied(s, s', s.dirs[s.cur], s'.dirs[c], p)} ::
          p < q ==> Copied(s, s', s.dirs[s.cur], s'.dirs[c], p))
    && Frames(s.alloc, s'.alloc, FramesOf(s'.dirs[c]), {})
    && SameMemory(s, s', {}) && SameNull(s, s')
  }

  /** Each page copied took one frame. */
  predicate Paid(s: State, s': State, c: DirId) {
    c in s'.dirs && NumFree(s'.alloc) + |s'.dirs[c]| == NumFree(s.alloc)
  }

  /** Memory has all frames the allocator can give out, and the parent's pages are in it. */
  ghost predicate Backed(s: State) {
    && (forall f {:trigger f in s.mem} :: FIRST_FRAME <= f < s.alloc.limit ==> f in s.mem && |s.mem[f]| == PAGE_SIZE)
    && s.cur in s.dirs
    && (forall p :: p in s.dirs[s.cur] ==> var f := s.dirs[s.cur][p].frame;
          f in s.mem && |s.mem[f]| == PAGE_SIZE && (f == ZERO_FRAME || f in Used(s.alloc)))
  }

  lemma InvBacked(s: State)
    requires Inv(s)
    ensures Backed(s)
  {
    PagesSized(s);
    FramesApart(s, s.cur);
    var o: Owners :| InvAt(s, o);
    forall f | FIRST_FRAME <= f < s.alloc.limit
      ensures f in s.mem && |s.mem[f]| == PAGE_SIZE
    {
      assert MemOk(s, f);
    }
  }

  lemma CopyingStart(s: State, s': State, c: DirId)
    requires Inv(s) && c !in s.dirs && s' == s.(dirs := s.dirs[c := map[]], tables := s.tables[c := {}])
    ensures Copying(s, s', c, FIRST_PAGE)
  {
    var o: Owners :| InvAt(s, o);
    forall p | p in s.dirs[s.cur]
      ensures FIRST_PAGE <= p
    {
      assert PteOk(s, o, s.cur, p);
    }
    assert FramesOf(map[]) == {};
  }

  lemma CopyingSkip(s: State, s': State, c: DirId, q: nat, q': nat)
    requires Copying(s, s', c, q) && q <= q' && forall p: Page :: q <= p < q' ==> p !in s.dirs[s.cur]
    ensures Copying(s, s', c, q')
  {
    forall p: Page | p < q'
      ensures Copied(s, s', s.dirs[s.cur], s'.dirs[c], p)
    {
      assert p < q ==> Copied(s, s', s.dirs[s.cur], s'.dirs[c], p);
    }
  }

  /** Before a page is copied its frame still has the content it had at the start. */
  lemma CopyingSource(s: State, s1: State, c: DirId, p: Page)
    requires Backed(s) && Valid(s.alloc) && Copying(s, s1, c, p) && p in s.dirs[s.cur]
    ensures s1.dirs[s.cur] == s.dirs[s.cur] && p !in s1.dirs[c] && c != s.cur
    ensures var f := s.dirs[s.cur][p].frame; f in s1.mem && f in s.mem && s1.mem[f] == s.mem[f] && |s.mem[f]| == PAGE_SIZE
    ensures forall f {:trigger f in Free(s1.alloc)} :: f in Free(s1.alloc) ==>
              f in s.mem && |s.mem[f]| == PAGE_SIZE && f !in Used(s.alloc) && f !in FramesOf(s1.dirs[c])
  {
    forall f | f in Free(s1.alloc)
      ensures f in s.mem && |s.mem[f]| == PAGE_SIZE && f !in Used(s.alloc) && f !in FramesOf(s1.dirs[c])
    {
      FreeIsUser(s1.alloc, f);
    }
  }

  lemma FramesAdd(d: Dir, p: Page, pte: Pte)
    requires p !in d && pte.frame != ZERO_FRAME
    ensures FramesOf(WithPte(d, p, pte)) == FramesOf(d) + {pte.frame}
  {
    forall f | f in FramesOf(d) + {pte.frame}
      ensures f in FramesOf(WithPte(d, p, pte))
    {
      if f in FramesOf(d) {
        var q :| q in d && d[q].frame != ZERO_FRAME && d[q].frame == f;
        assert WithPte(d, p, pte)[q].frame == f;
      } else {
        assert WithPte(d, p, pte)[p].frame == f;
      }
    }
  }

  lemma DistinctAdd(d: Dir, p: Page, pte: Pte)
    requires DistinctFrames(d) && p !in d && pte.frame != ZERO_FRAME && pte.frame !in FramesOf(d)
    ensures DistinctFrames(WithPte(d, p, pte))
  {
    forall q | q in d
      ensures d[q].frame != pte.frame
    {
      assert d[q].frame != ZERO_FRAME ==> d[q].frame in FramesOf(d);
    }
  }

  /** A content written to a frame nobody used before leaves the memory in use alone. */
  lemma MemoryMore(s: State, s1: State, f: Frame, c: Content, s2: State)
    requires SameMemory(s, s1, {}) && s2.mem == s1.mem[f := c]
    requires f in s.mem && |s.mem[f]| == |c| && f !in Used(s.alloc) && f != ZERO_FRAME
    ensures SameMemory(s, s2, {})
  {
  }

  lemma CopiedMore(s: State, s1: State, c: DirId, p: Page, x: Content, s2: State, q: Page)
    requires s.cur in s.dirs && c in s1.dirs && c in s2.dirs && p in s2.dirs[c]
    requires Copied(s, s1, s.dirs[s.cur], s1.dirs[c], q)
             && (q in s1.dirs[c] ==> s1.dirs[c][q].frame != s2.dirs[c][p].frame)
    requires q != p && s2.dirs[c] == WithPte(s1.dirs[c], p, s2.dirs[c][p])
    requires s2.mem == s1.mem[s2.dirs[c][p].frame := x]
    ensures Copied(s, s2, s.dirs[s.cur], s2.dirs[c], q)
  {
  }

  lemma PaidNext(s: State, s1: State, c: DirId, p: Page, s2: State)
    requires s1.cur in s1.dirs && c in s1.dirs && p in s1.dirs[s1.cur] && s1.dirs[s1.cur][p].frame in s1.mem
    requires p !in s1.dirs[c] && Paid(s, s1, c) && CopyStep(s1, c, p, s2, true)
    ensures Paid(s, s2, c)
  {
    assert s2.dirs[c].Keys == s1.dirs[c].Keys + {p};
  }

  lemma CopyingNext(s: State, s1: State, c: DirId, p: Page, s2: State)
    requires Backed(s) && Valid(s.alloc) && Copying(s, s1, c, p) && p in s.dirs[s.cur]
    requires s.dirs[s.cur][p].frame in s1.mem && s1.cur in s1.dirs && p in s1.dirs[s1.cur]
    requires s1.dirs[s1.cur][p] == s.dirs[s.cur][p] && CopyStep(s1, c, p, s2, true)
    ensures Copying(s, s2, c, p + 1)
  {
    var parent, pte := s.dirs[s.cur], s2.dirs[c][p];
    CopyingSource(s, s1, c, p);
    assert s2.dirs[c] == WithPte(s1.dirs[c], p, pte);
    FramesAdd(s1.dirs[c], p, pte);
    DistinctAdd(s1.dirs[c], p, pte);
    TakeMore(s.alloc, s1.alloc, s2.alloc, FramesOf(s1.dirs[c]), {pte.frame});
    MemoryMore(s, s1, pte.frame, s1.mem[parent[p].frame], s2);
    forall q: Page | q < p + 1
      ensures Copied(s, s2, parent, s2.dirs[c], q)
    {
      if q < p {
        assert Copied(s, s1, parent, s1.dirs[c], q);
        assert q in s1.dirs[c] && s1.dirs[c][q].frame != ZERO_FRAME ==> s1.dirs[c][q].frame in FramesOf(s1.dirs[c]);
        CopiedMore(s, s1, c, p, s1.mem[parent[p].frame], s2, q);
      }
    }
  }

  lemma CopyingEnd(s: State, s': State, c: DirId)
    requires Copying(s, s', c, NUM_PAGES) && s.cur in s.tables
    requires s'.tables == s.tables[c := UserTables(s.tables[s.cur])]
    ensures ForkStep(s, c, s', Ok)
  {
    assert s'.dirs[c].Keys == s.dirs[s.cur].Keys;
  }

  /** A copy given up half-way: everything goes back. */
  lemma CopyingUndone(s: State, s1: State, c: DirId, q: nat, s2: State)
    requires Copying(s, s1, c, q) && s.cur in s.tables && c !in s.tables
    requires s2.dirs == s1.dirs - {c} && s2.tables == s1.tables - {c} && s2.cur == s1.cur && s2.tlb == s1.tlb
             && s2.mem == s1.mem
    requires SameNull(s1, s2) && Frames(s1.alloc, s2.alloc, {}, FramesOf(s1.dirs[c]))
    ensures ForkStep(s, c, s2, Fail)
  {
    GiveBack(s.alloc, s1.alloc, s2.alloc, FramesOf(s1.dirs[c]));
    assert s2.dirs == s.dirs && s2.tables == s.tables;
  }

  /** What free_pd_memory needs of the half-built child. */
  lemma CopyingApart(s: State, s1: State, c: DirId, q: nat)
    requires Copying(s, s1, c, q)
    requires Tabled(s1.dirs[c], s1.tables[c])
    ensures Apart(s1.dirs[c], s1.alloc)
  {
    forall p | p in s1.dirs[c]
      ensures s1.dirs[c][p].frame == ZERO_FRAME || s1.dirs[c][p].frame in Used(s1.alloc)
    {
      assert s1.dirs[c][p].frame != ZERO_FRAME ==> s1.dirs[c][p].frame in FramesOf(s1.dirs[c]);
    }
  }

  // ------------------------------------------------------------------ the loops of fork

  /** The frames gave out before the pages did. */
  lemma FramesShort(s: State, s1: State, c: DirId, p: Page)
    requires Copying(s, s1, c, p) && Paid(s, s1, c) && p in s.dirs[s.cur] && NumFree(s1.alloc) == 0
    ensures |s.dirs[s.cur]| > NumFree(s.alloc)
  {
    SubsetSize(s1.dirs[c].Keys + {p}, s.dirs[s.cur].Keys);
    assert |s1.dirs[c].Keys + {p}| == |s1.dirs[c].Keys| + 1;
  }

  lemma {:induction false} SubsetSize<T>(a: set<T>, b: set<T>)
    requires a <= b
    ensures |a| <= |b|
  {
    assert b == a + (b - a);
  }

  /** One entry of the inner loop. */
  method CopyEntry(m: MemoryManager, c: DirId, p: Page, ghost s: State) returns (ok: bool)
    requires m.Ready() && Backed(s) && Valid(s.alloc) && Copying(s, m.Snapshot(), c, p) && Paid(s, m.Snapshot(), c)
    modifies m`dirs, m`tlb, m`mem, m`cr3, m.phys
    ensures m.Ready() && m.phys.data == old(m.phys.data) && m.tables == old(m.tables)
    ensures ok ==> Copying(s, m.Snapshot(), c, p + 1) && Paid(s, m.Snapshot(), c)
    ensures !ok ==> m.Snapshot() == old(m.Snapshot()) && |s.dirs[s.cur]| > NumFree(s.alloc)
  {
    ghost var s1 := m.Snapshot();
    if p !in m.dirs[m.cr3] {
      CopyingSkip(s, s1, c, p, p + 1);
      return true;
    }
    CopyingSource(s, s1, c, p);
    ok := CopyPage(m, c, p);
    if ok {
      CopyingNext(s, s1, c, p, m.Snapshot());
      PaidNext(s, s1, c, p, m.Snapshot());
    } else {
      FramesShort(s, s1, c, p);
    }
  }

  /** The inner loop: one page table. */
  method CopyTable(m: MemoryManager, c: DirId, first: nat, ghost s: State) returns (ok: bool, ghost q: nat)
    requires m.Ready() && Backed(s) && Valid(s.alloc) && first + ENTRIES <= NUM_PAGES
             && Copying(s, m.Snapshot(), c, first) && Paid(s, m.Snapshot(), c)
    modifies m`dirs, m`tlb, m`mem, m`cr3, m.phys
    ensures m.Ready() && m.phys.data == old(m.phys.data) && m.tables == old(m.tables)
    ensures first <= q <= first + ENTRIES && Copying(s, m.Snapshot(), c, q) && Paid(s, m.Snapshot(), c)
    ensures if ok then q == first + ENTRIES else |s.dirs[s.cur]| > NumFree(s.alloc)
  {
    var j := 0;
    while j < ENTRIES
      invariant 0 <= j <= ENTRIES && m.Ready() && m.phys.data == old(m.phys.data) && m.tables == old(m.tables)
      invariant Copying(s, m.Snapshot(), c, first + j) && Paid(s, m.Snapshot(), c)
    {
      ok := CopyEntry(m, c, first + j, s);
      if !ok {
        q := first + j;
        return;
      }
      j := j + 1;
    }
    ok, q := true, first + ENTRIES;
  }

  /** The parent's tables below index i, which the child has after i turns of the outer loop. */
  function TablesBelow(t: set<nat>, i: nat): set<nat> {
    set k | k in t && NUM_KERN_PAGE_TABLES <= k < i
  }

  lemma CopyingTables(s: State, s': State, c: DirId, q: nat, t: set<nat>)
    requires Copying(s, s', c, q)
    ensures Copying(s, s'.(tables := s'.tables[c := t]), c, q)
  {
    var s2 := s'.(tables := s'.tables[c := t]);
    forall p: Page | p < q
      ensures Copied(s, s2, s.dirs[s.cur], s2.dirs[c], p)
    {
      assert Copied(s, s', s.dirs[s.cur], s'.dirs[c], p);
    }
  }

  lemma ChildTabled(s: State, s': State, c: DirId, q: nat, i: nat)
    requires Copying(s, s', c, q) && q <= i * ENTRIES
    requires s.cur in s.tables && Tabled(s.dirs[s.cur], s.tables[s.cur])
             && s'.tables[c] == TablesBelow(s.tables[s.cur], i)
    ensures Tabled(s'.dirs[c], s'.tables[c])
  {
    forall p | p in s'.dirs[c]
      ensures FIRST_PAGE <= p && PdIndex(p) in s'.tables[c]
    {
      assert p in s.dirs[s.cur] && p < q && PdIndex(p) < i;
    }
  }

  lemma InvTabled(s: State)
    requires Inv(s)
    ensures s.cur in s.dirs && s.tables.Keys == s.dirs.Keys && Valid(s.alloc) && s.tlb == Walk(s.dirs[s.cur])
    ensures Tabled(s.dirs[s.cur], s.tables[s.cur])
  {
    var o: Owners :| InvAt(s, o);
    forall p | p in s.dirs[s.cur]
      ensures FIRST_PAGE <= p && PdIndex(p) in s.tables[s.cur]
    {
      assert PteOk(s, o, s.cur, p);
    }
  }

  /** free_pd_memory, then the directory itself. */
  method DropDirectory(m: MemoryManager, d: DirId)
    requires m.Ready() && d in m.dirs && d != m.cr3 && m.cr3 in m.dirs && d in m.tables
    requires Apart(m.dirs[d], m.phys.View()) && Tabled(m.dirs[d], m.tables[d])
    modifies m`dirs, m`tables, m.phys, m.phys.data
    ensures m.Ready() && (m.phys.data == old(m.phys.data) || fresh(m.phys.data))
    ensures m.dirs == old(m.dirs) - {d} && m.tables == old(m.tables) - {d}
    ensures Frames(old(m.phys.View()), m.phys.View(), {}, FramesOf(old(m.dirs)[d]))
  {
    FreePdMemory(m, d);
    m.dirs := m.dirs - {d};
    m.tables := m.tables - {d};
  }

  /** The cleanup of a fork that ran out of frames or of kernel memory. */
  method GiveUp(m: MemoryManager, c: DirId, ghost q: nat, ghost i: nat, ghost s: State)
    requires m.Ready() && Copying(s, m.Snapshot(), c, q) && q <= i * ENTRIES && c !in s.tables
    requires s.cur in s.tables && Tabled(s.dirs[s.cur], s.tables[s.cur])
             && m.tables[c] == TablesBelow(s.tables[s.cur], i)
    modifies m`dirs, m`tables, m.phys, m.phys.data
    ensures m.Ready() && (m.phys.data == old(m.phys.data) || fresh(m.phys.data))
    ensures ForkStep(s, c, m.Snapshot(), Fail)
  {
    ghost var s1 := m.Snapshot();
    ChildTabled(s, s1, c, q, i);
    CopyingApart(s, s1, c, q);
    DropDirectory(m, c);
    CopyingUndone(s, s1, c, q, m.Snapshot());
  }

  /** new_pd_from_parent */
  method NewPdFromParent(m: MemoryManager, c: DirId, room: nat) returns (r: Result)
    requires m.Ready() && Inv(m.Snapshot()) && c !in m.dirs && m.cr3 in m.dirs && m.cr3 in m.tables
    modifies m, m.phys, m.phys.data
    ensures m.Ready() && (m.phys.data == old(m.phys.data) || fresh(m.phys.data))
    ensures ForkStep(old(m.Snapshot()), c, m.Snapshot(), r) && r == ForkAnswer(old(m.Snapshot()), room)
  {
    ghost var s := m.Snapshot();
    InvTabled(s);
    InvBacked(s);
    if room < 2 {
      return Fail;
    }
    m.dirs := m.dirs[c := map[]];
    m.tables := m.tables[c := {}];
    CopyingStart(s, m.Snapshot(), c);
    NoneCopied(s, m.Snapshot(), c);
    var ok := CopyTables(m, c, room - 2, s);
    r := if ok then Ok else Fail;
  }

  /** An empty table for the child. */
  method AddTable(m: MemoryManager, c: DirId, i: nat, ghost s: State)
    requires m.Ready() && Copying(s, m.Snapshot(), c, i * ENTRIES) && Paid(s, m.Snapshot(), c)
    requires s.cur in s.tables && NUM_KERN_PAGE_TABLES <= i < ENTRIES && i in s.tables[s.cur]
    requires m.tables[c] == TablesBelow(s.tables[s.cur], i)
    modifies m`tables
    ensures m.Ready() && Copying(s, m.Snapshot(), c, i * ENTRIES) && Paid(s, m.Snapshot(), c)
    ensures c in m.tables && m.tables[c] == TablesBelow(s.tables[s.cur], i + 1)
  {
    CopyingTables(s, m.Snapshot(), c, i * ENTRIES, m.tables[c] + {i});
    m.tables := m.tables[c := m.tables[c] + {i}];
  }

  /** The table at index i, for which there is kernel memory. */
  method CopyPresentTable(m: MemoryManager, c: DirId, i: nat, ghost s: State) returns (ok: bool, ghost q: nat)
    requires m.Ready() && Backed(s) && Valid(s.alloc) && NUM_KERN_PAGE_TABLES <= i < ENTRIES
    requires Copying(s, m.Snapshot(), c, i * ENTRIES) && Paid(s, m.Snapshot(), c)
    requires s.cur in s.tables && i in s.tables[s.cur] && m.tables[c] == TablesBelow(s.tables[s.cur], i)
    modifies m`dirs, m`tables, m`tlb, m`mem, m`cr3, m.phys
    ensures m.Ready() && m.phys.data == old(m.phys.data)
    ensures i * ENTRIES <= q <= i * ENTRIES + ENTRIES && Copying(s, m.Snapshot(), c, q) && Paid(s, m.Snapshot(), c)
    ensures c in m.tables && m.tables[c] == TablesBelow(s.tables[s.cur], i + 1)
    ensures if ok then q == i * ENTRIES + ENTRIES else |s.dirs[s.cur]| > NumFree(s.alloc)
  {
    AddTable(m, c, i, s);
    ok, q := CopyTable(m, c, i * ENTRIES, s);
  }

  /** One turn of the outer loop: the table at index i, if the parent has it. */
  method CopyTableAt(m: MemoryManager, c: DirId, i: nat, gotPt: bool, ghost s: State) returns (ok: bool)
    requires m.Ready() && Backed(s) && Valid(s.alloc) && NUM_KERN_PAGE_TABLES <= i < ENTRIES
    requires Copying(s, m.Snapshot(), c, i * ENTRIES) && Paid(s, m.Snapshot(), c)
    requires s.cur in s.tables && c !in s.tables && Tabled(s.dirs[s.cur], s.tables[s.cur])
    requires m.tables[c] == TablesBelow(s.tables[s.cur], i)
    modifies m, m.phys, m.phys.data
    ensures m.Ready() && (m.phys.data == old(m.phys.data) || fresh(m.phys.data))
            && (ok ==> m.phys.data == old(m.phys.data))
    ensures ok ==> Copying(s, m.Snapshot(), c, i * ENTRIES + ENTRIES) && c in m.tables && m.tables[c] == TablesBelow(s.tables[s.cur], i + 1)
    ensures ok ==> Paid(s, m.Snapshot(), c) && (i !in s.tables[s.cur] || gotPt)
    ensures !ok ==> ForkStep(s, c, m.Snapshot(), Fail)
    ensures !ok ==> |s.dirs[s.cur]| > NumFree(s.alloc) || (i in s.tables[s.cur] && !gotPt)
  {
    if i in m.tables[m.cr3] {
      if gotPt {
        ghost var q: nat;
        ok, q := CopyPresentTable(m, c, i, s);
        if !ok {
          GiveUp(m, c, q, i + 1, s);
        }
      } else {
        GiveUp(m, c, i * ENTRIES, i, s);
        ok := false;
      }
    } else {
      NoPages(s.dirs[s.cur], s.tables[s.cur], i);
      CopyingSkip(s, m.Snapshot(), c, i * ENTRIES, i * ENTRIES + ENTRIES);
      assert TablesBelow(s.tables[s.cur], i + 1) == TablesBelow(s.tables[s.cur], i);
      ok := true;
    }
  }

  /** The tables below index i + 1, of which smemalign had to find one for i. */
  lemma OneMoreTable(t: set<nat>, i: nat)
    requires NUM_KERN_PAGE_TABLES <= i < ENTRIES
    ensures |TablesBelow(t, i + 1)| == |TablesBelow(t, i)| + (if i in t then 1 else 0)
    ensures |TablesBelow(t, i + 1)| <= |UserTables(t)|
  {
    assert TablesBelow(t, i + 1) == TablesBelow(t, i) + if i in t then {i} else {};
    SubsetSize(TablesBelow(t, i + 1), UserTables(t));
  }

  /** The tables below index i are copied. */
  ghost predicate CopiedBelow(s: State, s': State, c: DirId, i: nat) {
    && Copying(s, s', c, i * ENTRIES) && Paid(s, s', c)
    && s.cur in s.tables && s'.tables[c] == TablesBelow(s.tables[s.cur], i)
  }

  /** Of the pages smemalign had, one is gone for each table below index i. */
  ghost predicate Spent(s: State, i: nat, room: nat, left: nat) {
    s.cur in s.tables && left + |TablesBelow(s.tables[s.cur], i)| == room
  }

  /** The copy needs more frames or tables than there are. */
  ghost predicate Short(s: State, room: nat) {
    s.cur in s.dirs && s.cur in s.tables
    && (|s.dirs[s.cur]| > NumFree(s.alloc) || |UserTables(s.tables[s.cur])| > room)
  }

  /** One turn, and what is left of the kernel memory. */
  method CopyTurn(m: MemoryManager, c: DirId, i: nat, left: nat, ghost room: nat, ghost s: State)
    returns (ok: bool, rest: nat)
    requires m.Ready() && Backed(s) && Valid(s.alloc) && NUM_KERN_PAGE_TABLES <= i < ENTRIES
    requires CopiedBelow(s, m.Snapshot(), c, i) && c !in s.tables && Tabled(s.dirs[s.cur], s.tables[s.cur])
    requires Spent(s, i, room, left)
    modifies m, m.phys, m.phys.data
    ensures m.Ready() && (m.phys.data == old(m.phys.data) || fresh(m.phys.data))
            && (ok ==> m.phys.data == old(m.phys.data))
    ensures ok ==> CopiedBelow(s, m.Snapshot(), c, i + 1) && Spent(s, i + 1, room, rest)
    ensures !ok ==> ForkStep(s, c, m.Snapshot(), Fail) && Short(s, room)
  {
    OneMoreTable(s.tables[s.cur], i);
    var present := i in m.tables[m.cr3];
    assert m.tables[m.cr3] == s.tables[s.cur];
    ok := CopyTableAt(m, c, i, left > 0, s);
    rest := if present && left > 0 then left - 1 else left;
  }

  lemma NoneCopied(s: State, s': State, c: DirId)
    requires Copying(s, s', c, FIRST_PAGE) && Paid(s, s', c) && s.cur in s.tables && s'.tables[c] == {}
    ensures CopiedBelow(s, s', c, NUM_KERN_PAGE_TABLES) && TablesBelow(s.tables[s.cur], NUM_KERN_PAGE_TABLES) == {}
  {
    assert TablesBelow(s.tables[s.cur], NUM_KERN_PAGE_TABLES) == {};
  }

  lemma AllCopied(s: State, s': State, c: DirId, room: nat, left: nat)
    requires CopiedBelow(s, s', c, ENTRIES) && Valid(s'.alloc) && Spent(s, ENTRIES, room, left)
    ensures ForkStep(s, c, s', Ok) && !Short(s, room)
  {
    assert TablesBelow(s.tables[s.cur], ENTRIES) == UserTables(s.tables[s.cur]);
    CopyingEnd(s, s', c);
    assert s'.dirs[c].Keys == s.dirs[s.cur].Keys;
  }

  /** The outer loop; `room` is what smemalign has left. */
  method CopyTables(m: MemoryManager, c: DirId, room: nat, ghost s: State) returns (ok: bool)
    requires m.Ready() && Backed(s) && Valid(s.alloc)
    requires s.cur in s.tables && CopiedBelow(s, m.Snapshot(), c, NUM_KERN_PAGE_TABLES)
             && TablesBelow(s.tables[s.cur], NUM_KERN_PAGE_TABLES) == {}
    requires c !in s.tables && Tabled(s.dirs[s.cur], s.tables[s.cur])
    modifies m, m.phys, m.phys.data
    ensures m.Ready() && (m.phys.data == old(m.phys.data) || fresh(m.phys.data))
    ensures ForkStep(s, c, m.Snapshot(), if ok then Ok else Fail)
    ensures ok == !Short(s, room)
  {
    var i := NUM_KERN_PAGE_TABLES;
    var left: nat := room;
    while i < ENTRIES
      invariant NUM_KERN_PAGE_TABLES <= i <= ENTRIES && m.Ready() && m.phys.data == old(m.phys.data)
      invariant CopiedBelow(s, m.Snapshot(), c, i)
      invariant Spent(s, i, room, left)
    {
      ok, left := CopyTurn(m, c, i, left, room, s);
      if !ok {
        return;
      }
      i := i + 1;
    }
    AllCopied(s, m.Snapshot(), c, room, left);
    return true;
  }

  /** free_pd_memory of a task that is gone, and its directory. */
  method FreeDirectory(m: MemoryManager, d: DirId)
    requires m.Ready() && Inv(m.Snapshot()) && d in m.dirs && d != m.cr3
    modifies m`dirs, m`tables, m.phys, m.phys.data
    ensures m.Ready() && (m.phys.data == old(m.phys.data) || fresh(m.phys.data))
    ensures FreeDirStep(old(m.Snapshot()), d, m.Snapshot(), Ok)
  {
    ghost var s := m.Snapshot();
    FramesApart(s, d);
    DirTabled(s, d);
    DropDirectory(m, d);
  }

  lemma DirTabled(s: State, d: DirId)
    requires Inv(s) && d in s.dirs
    ensures s.cur in s.dirs && d in s.tables && Tabled(s.dirs[d], s.tables[d])
  {
    var o: Owners :| InvAt(s, o);
    forall p | p in s.dirs[d]
      ensures FIRST_PAGE <= p && PdIndex(p) in s.tables[d]
    {
      assert PteOk(s, o, d, p);
    }
  }
}
