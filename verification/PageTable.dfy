/** Two-level page tables as the kernel keeps them (p3/kern/memory_manager.c, is_valid_pd.c): the coding of an
    entry in a word, and a page directory over arrays that is edited in place. */
module PageTable {
  import opened Seqs
  import opened PhysAlloc

  const PAGE_SIZE: nat := 4096
  const ENTRIES: nat := 1024
  const NUM_KERN_PAGE_TABLES: nat := 4
  const NUM_PAGES: nat := 0x10_0000
  /** The first page of user memory: USER_MEM_START / PAGE_SIZE. */
  const FIRST_PAGE: nat := 4096

  type Page = p: nat | p < NUM_PAGES

  /** Bits 9 to 11, which the hardware leaves to the system programmer. */
  datatype Mark = Plain | Base | Continue

  datatype Entry = Empty | Entry(frame: Frame, present: bool, writable: bool, user: bool, global: bool, mark: Mark)

  // ------------------------------------------------------------------ words

  function Bit(b: bool, weight: nat): nat {
    if b then weight else 0
  }

  function MarkBits(m: Mark): nat {
    match m
    case Plain => 0
    case Base => 512       // 1 << 9
    case Continue => 1024  // 2 << 9
  }

  /** PRESENT_FLAG, RW_FLAG, USER_FLAG, GLOBAL_FLAG and the mark, over the frame's address. */
  function Pack(e: Entry): nat {
    match e
    case Empty => 0
    case Entry(f, p, w, u, g, m) => f * PAGE_SIZE + Bit(p, 1) + Bit(w, 2) + Bit(u, 4) + Bit(g, 256) + MarkBits(m)
  }

  /** TABLE_ADDRESS, the single bits and SYS_PROG_FLAG of a word; None for the flag values
      is_valid_sys_prog_flag refuses. */
  function TableFrame(w: nat): Frame {
    w / PAGE_SIZE
  }

  function Unpack(w: nat): Option<Entry> {
    if w == 0 then Some(Empty)
    else
      var m := w % PAGE_SIZE / 512;
      if m > 2 then None
      else Some(Entry(TableFrame(w), w % 2 == 1, w / 2 % 2 == 1, w / 4 % 2 == 1, w / 256 % 2 == 1,
                      if m == 0 then Plain else if m == 1 then Base else Continue))
  }

  lemma FrameOf(f: nat, low: nat)
    requires low < PAGE_SIZE
    ensures (f * PAGE_SIZE + low) / PAGE_SIZE == f && (f * PAGE_SIZE + low) % PAGE_SIZE == low
  {
  }

  lemma Bits01(f: nat, low: nat)
    ensures (f * PAGE_SIZE + low) % 2 == low % 2
    ensures (f * PAGE_SIZE + low) / 2 == f * 2048 + low / 2
  {
  }

  lemma Bit2(f: nat, low: nat)
    ensures (f * PAGE_SIZE + low) / 4 == f * 1024 + low / 4
  {
  }

  lemma Bit8(f: nat, low: nat)
    ensures (f * PAGE_SIZE + low) / 256 == f * 16 + low / 256
  {
  }

  lemma EvenPlus(a: nat, b: nat)
    ensures (2 * a + b) % 2 == b % 2
  {
  }

  /** The bits below the frame do not depend on it. */
  lemma LowBits(f: nat, low: nat)
    ensures var w := f * PAGE_SIZE + low;
            w % 2 == low % 2 && w / 2 % 2 == low / 2 % 2 && w / 4 % 2 == low / 4 % 2 && w / 256 % 2 == low / 256 % 2
  {
    Bits01(f, low);
    Bit2(f, low);
    Bit8(f, low);
    EvenPlus(f * 1024, low / 2);
    EvenPlus(f * 512, low / 4);
    EvenPlus(f * 8, low / 256);
  }

  function LowPart(p: bool, w: bool, u: bool, g: bool, m: Mark): (low: nat)
    ensures low < PAGE_SIZE
  {
    Bit(p, 1) + Bit(w, 2) + Bit(u, 4) + Bit(g, 256) + MarkBits(m)
  }

  lemma UnpackIs(f: nat, low: nat)
    requires f != 0 && low < PAGE_SIZE && low / 512 <= 2
    ensures Unpack(f * PAGE_SIZE + low)
            == Some(Entry(f, low % 2 == 1, low / 2 % 2 == 1, low / 4 % 2 == 1, low / 256 % 2 == 1,
                          if low / 512 == 0 then Plain else if low / 512 == 1 then Base else Continue))
  {
    FrameOf(f, low);
    LowBits(f, low);
  }

  /** A word keeps what was packed into it. */
  lemma PackUnpack(e: Entry)
    requires e.Entry? ==> e.frame != 0
    ensures Unpack(Pack(e)) == Some(e)
    ensures e.Entry? ==> TableFrame(Pack(e)) == e.frame
  {
    match e
    case Empty =>
    case Entry(f, p, w, u, g, m) =>
      var low := LowPart(p, w, u, g, m);
      assert Pack(e) == f * PAGE_SIZE + low;
      FrameOf(f, low);
      FlagsOf(p, w, u, g, m);
      UnpackIs(f, low);
  }

  lemma FlagsOf(p: bool, w: bool, u: bool, g: bool, m: Mark)
    ensures var low := LowPart(p, w, u, g, m);
            && low % 2 == Bit(p, 1) && low / 2 % 2 == Bit(w, 1) && low / 4 % 2 == Bit(u, 1)
            && low / 256 % 2 == Bit(g, 1) && low / 512 * 512 == MarkBits(m)
  {
  }

  /** PD_INDEX and PT_INDEX of a virtual address name the table and the slot of its page. */
  function PdIndex(p: Page): (i: nat)
    ensures i < ENTRIES
  {
    p / ENTRIES
  }

  function PtIndex(p: Page): (i: nat)
    ensures i < ENTRIES
  {
    p % ENTRIES
  }

  lemma IndexSplit(addr: nat)
    requires addr < NUM_PAGES * PAGE_SIZE
    ensures PdIndex(addr / PAGE_SIZE) == addr / 0x40_0000
    ensures PtIndex(addr / PAGE_SIZE) == addr / PAGE_SIZE % ENTRIES
  {
    assert addr / 0x40_0000 == addr / PAGE_SIZE / ENTRIES;
  }

  /** Different pages have different slots. */
  lemma IndexInjective(p: Page, q: Page)
    ensures PdIndex(p) == PdIndex(q) && PtIndex(p) == PtIndex(q) <==> p == q
  {
  }

  // ------------------------------------------------------------------ validity

  /** What is_valid_pt demands of one entry of the table at index `i`; `next` is max_free_address. */
  predicate EntryOk(e: Entry, i: nat, next: Frame) {
    match e
    case Empty => true
    case Entry(f, p, _, _, g, _) =>
      f != 0 && p && (if i >= NUM_KERN_PAGE_TABLES then !g && (f == ZERO_FRAME
        || ZERO_FRAME < f <= next) else f < ZERO_FRAME)
  }

  class PageDir {
    /** Absent tables are null.  The first four map the kernel and are shared by all directories. */
    const tables: array<array?<Entry>>

    ghost predicate Shape()
      reads this, tables
    {
      && tables.Length == ENTRIES
      && (forall i :: 0 <= i < ENTRIES && tables[i] != null ==> tables[i].Length == ENTRIES)
      && (forall i, j :: 0 <= i < j < ENTRIES && tables[i] != null ==> tables[i] != tables[j])
      && (forall i :: 0 <= i < NUM_KERN_PAGE_TABLES ==> tables[i] != null)
    }

    ghost function Repr(): set<object>
      requires tables.Length == ENTRIES
      reads this, tables
    {
      set i | 0 <= i < ENTRIES && tables[i] != null :: tables[i] as object
    }

    /** The entry of a page, Empty when its table is absent. */
    function EntryAt(p: Page): Entry
      requires Shape()
      reads this, tables, Repr()
    {
      if tables[PdIndex(p)] == null then Empty else tables[PdIndex(p)][PtIndex(p)]
    }

    predicate HasTable(p: Page)
      requires Shape()
      reads this, tables
    {
      tables[PdIndex(p)] != null
    }

    /** is_user_pointer_allocated */
    method IsAllocated(p: Page) returns (ok: bool)
      requires Shape()
      ensures ok <==> EntryAt(p).Entry? && EntryAt(p).present
    {
      var pt := tables[PdIndex(p)];
      if pt == null {
        return false;
      }
      return pt[PtIndex(p)].Entry? && pt[PtIndex(p)].present;
    }

    /** add_new_pt_to_pd; `pt` is what smemalign found, null for nothing. */
    method AddNewPt(p: Page, pt: array?<Entry>) returns (ok: bool)
      requires Shape() && (pt != null ==> pt.Length == ENTRIES && pt !in Repr())
      modifies tables, pt
      ensures Shape()
      ensures ok <==> !old(HasTable(p)) && pt != null
      ensures tables[PdIndex(p)] == if ok then pt else old(tables[PdIndex(p)])
      ensures forall q: Page :: PdIndex(q) != PdIndex(p) ==> HasTable(q) == old(HasTable(q))
      ensures forall q: Page :: EntryAt(q) == old(EntryAt(q))
    {
      var i := PdIndex(p);
      if tables[i] != null || pt == null {
        return false;
      }
      var k := 0;
      while k < ENTRIES
        invariant 0 <= k <= ENTRIES
        invariant forall x :: 0 <= x < k ==> pt[x] == Empty
        modifies pt
      {
        pt[k] := Empty;
        k := k + 1;
      }
      tables[i] := pt;
      return true;
    }

    /** Writing through the pointer get_ptep returns. */
    method SetEntry(p: Page, e: Entry)
      requires Shape() && HasTable(p)
      modifies tables[PdIndex(p)]
      ensures Shape() && EntryAt(p) == e
      ensures forall q: Page :: q != p ==> EntryAt(q) == old(EntryAt(q))
      ensures forall q: Page :: HasTable(q) == old(HasTable(q))
    {
      forall q: Page
        ensures PdIndex(p) == PdIndex(q) && PtIndex(p) == PtIndex(q) <==> p == q
      {
        IndexInjective(p, q);
      }
      var pt := tables[PdIndex(p)];
      pt[PtIndex(p)] := e;
    }

    /** is_valid_pt: every entry of the table is as EntryOk says. */
    method IsValidPt(i: nat, next: Frame) returns (ok: bool)
      requires Shape() && i < ENTRIES && tables[i] != null
      ensures ok <==> forall k :: 0 <= k < ENTRIES ==> EntryOk(tables[i][k], i, next)
    {
      var pt := tables[i];
      var k := 0;
      while k < ENTRIES
        invariant 0 <= k <= ENTRIES
        invariant forall x :: 0 <= x < k ==> EntryOk(pt[x], i, next)
      {
        var e := pt[k];
        if e.Entry? {
          if e.frame == 0 || !e.present {
            return false;
          }
          if i >= NUM_KERN_PAGE_TABLES {
            if e.global {
              return false;
            }
            if e.frame != ZERO_FRAME && !(ZERO_FRAME < e.frame <= next) {
              return false;
            }
          } else if e.frame >= ZERO_FRAME {
            return false;
          }
        }
        k := k + 1;
      }
      return true;
    }

    /** is_valid_pd: the two loops decide that every page's entry is valid. */
    method IsValidPd(next: Frame) returns (ok: bool)
      requires Shape()
      ensures ok <==> forall p: Page :: EntryOk(EntryAt(p), PdIndex(p), next)
    {
      var i := 0;
      while i < ENTRIES
        invariant 0 <= i <= ENTRIES
        invariant forall p: Page :: PdIndex(p) < i ==> EntryOk(EntryAt(p), PdIndex(p), next)
      {
        if tables[i] != null {
          var valid := IsValidPt(i, next);
          if !valid {
            var k :| 0 <= k < ENTRIES && !EntryOk(tables[i][k], i, next);
            SlotPage(i, k);
            return false;
          }
        }
        i := i + 1;
      }
      return true;
    }
  }

  /** Every slot is the slot of a page. */
  lemma SlotPage(i: nat, k: nat)
    requires i < ENTRIES && k < ENTRIES
    ensures var p: Page := i * ENTRIES + k; PdIndex(p) == i && PtIndex(p) == k
  {
  }
}
