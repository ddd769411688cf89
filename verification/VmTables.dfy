/** The same edits on page tables that are arrays: the walk and the two edits of memory_manager.c, the loop of
    remove_pages over entries, and is_valid_pd on what they leave. */
module VmTables {
  import opened PhysAlloc
  import opened PageTable
  import opened Vm
  import opened VmTheorems

  function Word(pte: Pte): Entry {
    Entry(pte.frame, true, pte.writable, true, false, pte.mark)
  }

  /** unallocate_frame, past the frame: the entry is cleared through get_ptep's pointer. */
  method ClearEntry(pd: PageDir, p: Page, ghost d: Dir, ghost nullMapped: bool)
    requires pd.Shape() && Represents(pd, d, nullMapped) && FIRST_PAGE <= p && p in d
    modifies pd.tables[PdIndex(p)]
    ensures pd.Shape() && Represents(pd, d - {p}, nullMapped)
  {
    assert pd.EntryAt(p).Entry?;
    pd.SetEntry(p, Empty);
  }

  /** allocate_user_zero_frame: a table if there is none, then the zero frame, read-only, with the mark. */
  method MapZeroFrame(pd: PageDir, p: Page, mark: Mark, pt: array?<Entry>, ghost d: Dir, ghost nullMapped: bool) returns (ok: bool)
    requires pd.Shape() && Represents(pd, d, nullMapped) && FIRST_PAGE <= p
    requires pt != null ==> pt.Length == ENTRIES && pt !in pd.Repr()
    modifies pd.tables, pt, pd.tables[PdIndex(p)]
    ensures pd.Shape() && Represents(pd, if ok then d[p := Pte(ZERO_FRAME, false, mark)] else d, nullMapped)
    ensures ok <==> p !in d && (old(pd.HasTable(p)) || pt != null)
  {
    if pd.tables[PdIndex(p)] == null {
      ok := pd.AddNewPt(p, pt);
      if !ok {
        return;
      }
    }
    if pd.tables[PdIndex(p)][PtIndex(p)] != Empty {
      return false;
    }
    pd.SetEntry(p, Word(Pte(ZERO_FRAME, false, mark)));
    return true;
  }

  /** The mark of a page, read through get_ptep: NULL when its table is absent. */
  method IsMarked(pd: PageDir, p: Page, mark: Mark) returns (yes: bool)
    requires pd.Shape()
    ensures yes <==> pd.EntryAt(p).Entry? && pd.EntryAt(p).mark == mark
  {
    var pt := pd.tables[PdIndex(p)];
    yes := pt != null && pt[PtIndex(p)].Entry? && pt[PtIndex(p)].mark == mark;
  }

  /** The pages of d from b up to curr are cleared, and all of them continued the first. */
  ghost predicate Clearing(pd: PageDir, b: Page, curr: nat, d: Dir, nullMapped: bool)
    reads pd, pd.tables, if pd.tables.Length == ENTRIES then pd.Repr() else {}
  {
    && pd.Shape() && Represents(pd, WithoutPages(d, b, curr), nullMapped)
    && forall q: Page :: b < q < curr ==> q in d && d[q].mark == Continue
  }

  method ClearNext(pd: PageDir, b: Page, curr: Page, ghost d: Dir, ghost nullMapped: bool) returns (more: bool)
    requires Clearing(pd, b, curr, d, nullMapped) && FIRST_PAGE <= b < curr
    modifies pd.tables[PdIndex(curr)]
    ensures Clearing(pd, b, if more then curr + 1 else curr, d, nullMapped)
    ensures more <==> curr in d && d[curr].mark == Continue
  {
    more := IsMarked(pd, curr, Continue);
    if more {
      ClearEntry(pd, curr, WithoutPages(d, b, curr), nullMapped);
      assert WithoutPages(d, b, curr) - {curr} == WithoutPages(d, b, curr + 1);
    }
  }

  lemma ClearedRun(d: Dir, b: Page, curr: nat)
    requires b < curr <= NUM_PAGES && forall q: Page :: b < q < curr ==> q in d && d[q].mark == Continue
    requires curr < NUM_PAGES && curr in d ==> d[curr].mark != Continue
    ensures RunEnd(d, b + 1) == curr
  {
    RunEndIs(d, b + 1, curr);
  }

  /** The loop of remove_pages over the entries of user pages. */
  method ClearRun(pd: PageDir, b: Page, ghost d: Dir, ghost nullMapped: bool) returns (ok: bool)
    requires pd.Shape() && Represents(pd, d, nullMapped) && FIRST_PAGE <= b
    modifies pd.Repr()
    ensures pd.Shape()
    ensures ok <==> b in d && d[b].mark == Base
    ensures Represents(pd, if ok then WithoutPages(d, b, RunEnd(d, b + 1)) else d, nullMapped)
  {
    ok := IsMarked(pd, b, Base);
    if !ok {
      return;
    }
    ClearEntry(pd, b, d, nullMapped);
    var curr, more := b + 1, true;
    assert d - {b} == WithoutPages(d, b, curr);
    while curr < NUM_PAGES && more
      invariant b < curr <= NUM_PAGES && unchanged(pd.tables)
      invariant Clearing(pd, b, curr, d, nullMapped)
      invariant !more ==> curr < NUM_PAGES && !(curr in d && d[curr].mark == Continue)
      decreases NUM_PAGES - curr, more
    {
      more := ClearNext(pd, b, curr, d, nullMapped);
      if more {
        curr := curr + 1;
      }
    }
    ClearedRun(d, b, curr);
  }

  /** assert(is_valid_pd(pd)) on the tables of a directory of a reachable state. */
  method CheckDirectory(pd: PageDir, ghost s: State, d: DirId, maxFree: Frame) returns (ok: bool)
    requires Inv(s) && d in s.dirs && pd.Shape() && Represents(pd, s.dirs[d], s.nullMapped) && maxFree == s.alloc.next
    requires forall p: Page :: 0 < p < FIRST_PAGE ==> EntryOk(pd.EntryAt(p), PdIndex(p), s.alloc.next)
    ensures ok <==> !s.nullMapped
  {
    TablesValidIff(pd, s, d);
    ok := pd.IsValidPd(maxFree);
  }
}
