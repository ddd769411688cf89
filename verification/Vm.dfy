/** Address spaces over the frame allocator: new_pages, remove_pages, demand-zero page faults, fork's copy and
    the teardown of a page directory (p3/kern/memory_manager.c, p3/kern/lib_memory_management).

    A directory is the map of its user pages; kernel pages are the same in all of them.  The translation
    cache is the largest the processor may have: whatever the tables said of user pages at some moment since
    the entry was last flushed (Intel SDM volume 3A, section 4.10). */
module Vm {
  import opened PhysAlloc
  import opened PageTable

  type DirId = nat
  newtype Byte = b: int | 0 <= b < 256
  type Content = seq<Byte>

  const USER_MEM_START: nat := FIRST_PAGE * PAGE_SIZE

  /** A present user entry of a page table. */
  datatype Pte = Pte(frame: Frame, writable: bool, mark: Mark)

  type Dir = map<Page, Pte>

  datatype Cached = Cached(page: Page, frame: Frame, writable: bool)

  datatype State = State(
    dirs: map<DirId, Dir>,
    tables: map<DirId, set<nat>>,   // indices of the user page tables each directory has
    cur: DirId,                     // cr3
    tlb: set<Cached>,
    mem: map<Frame, Content>,
    alloc: Alloc,
    nullMapped: bool)               // page 0, in a page table all directories share, is on the zero frame

  function ZeroPage(): (c: Content)
    ensures |c| == PAGE_SIZE && forall i :: 0 <= i < PAGE_SIZE ==> c[i] == 0
  {
    seq(PAGE_SIZE, _ => 0)
  }

  /** Every translation a walk of the tables can give. */
  function Walk(d: Dir): set<Cached> {
    set p | p in d :: Cached(p, d[p].frame, d[p].writable)
  }

  // ------------------------------------------------------------------ invariant

  type Owners = map<Frame, (DirId, Page)>

  /** A user entry is in a table the directory has, and its frame is the zero frame, read-only, or the page's own. */
  ghost predicate PteOk(s: State, o: Owners, d: DirId, p: Page) {
    d in s.dirs && p in s.dirs[d] ==>
      && FIRST_PAGE <= p && d in s.tables && PdIndex(p) in s.tables[d]
      && (if s.dirs[d][p].frame == ZERO_FRAME then !s.dirs[d][p].writable
          else s.dirs[d][p].frame in o && o[s.dirs[d][p].frame] == (d, p))
  }

  ghost predicate OwnerOk(s: State, o: Owners, f: Frame) {
    f in o ==> o[f].0 in s.dirs && o[f].1 in s.dirs[o[f].0] && s.dirs[o[f].0][o[f].1].frame == f
  }

  /** A page that continues a run comes directly after a page of the run. */
  ghost predicate RunOk(d: Dir, p: Page) {
    p in d && d[p].mark == Continue ==> p > 0 && (p - 1) in d && d[p - 1].mark != Plain
  }

  ghost predicate RunsOk(d: Dir) {
    forall p: Page {:trigger RunOk(d, p)} :: RunOk(d, p)
  }

  ghost predicate DirOk(s: State, d: DirId) {
    d in s.dirs ==> RunsOk(s.dirs[d])
  }

  /** No page of any directory continues a run that is not there. */
  ghost predicate AllRuns(s: State) {
    forall d {:trigger DirOk(s, d)} :: DirOk(s, d)
  }

  ghost predicate MemOk(s: State, f: Frame) {
    f == ZERO_FRAME || f in Below(FIRST_FRAME, s.alloc.limit) ==>
      f in s.mem && |s.mem[f]| == PAGE_SIZE && (f == ZERO_FRAME ==> s.mem[f] == ZeroPage())
  }

  ghost predicate Shape(s: State) {
    && s.cur in s.dirs && s.tables.Keys == s.dirs.Keys
    && Valid(s.alloc)
    && s.tlb == Walk(s.dirs[s.cur])
  }

  /** Every frame in use has one owner, and every user page is on the zero frame or owns its frame. */
  ghost predicate Owned(s: State, o: Owners) {
    && o.Keys == Used(s.alloc)
    && (forall d, p {:trigger PteOk(s, o, d, p)} :: PteOk(s, o, d, p))
    && (forall f {:trigger OwnerOk(s, o, f)} :: OwnerOk(s, o, f))
  }

  ghost predicate InvAt(s: State, o: Owners) {
    Shape(s) && Owned(s, o) && forall f {:trigger MemOk(s, f)} :: MemOk(s, f)
  }

  /** What every operation keeps; that runs are whole (AllRuns) is apart, because a write may break one. */
  ghost predicate Inv(s: State) {
    exists o :: InvAt(s, o)
  }

  // ------------------------------------------------------------------ operations

  datatype Op =
    | NewPages(base: nat, len: int)
    | RemovePages(base: nat)
    | Read(addr: nat)
    | Write(addr: nat, v: Byte)
    | Fork(child: DirId, room: nat)     // room: the pages of kernel memory smemalign has for the call
    | Switch(d: DirId)
    | NewDir(d: DirId)
    | FreeDir(d: DirId)
    | AllocateFrame(d: DirId, p: Page, writable: bool)

  /** Fail is -1; Fault is an access the handler does not repair. */
  datatype Result = Ok | Fail | Value(b: Byte) | Fault

  /** The frame bookkeeping of a step: exactly `taken` is in use in addition, exactly `given` no longer. */
  ghost predicate Frames(a: Alloc, a': Alloc, taken: set<Frame>, given: set<Frame>) {
    && Valid(a') && a'.limit == a.limit
    && taken !! Used(a) && given <= Used(a)
    && Used(a') == Used(a) + taken - given
  }

  ghost predicate SameFrames(a: Alloc, a': Alloc) {
    Frames(a, a', {}, {})
  }

  /** Memory in use before and after keeps its content, apart from the frames of `except`. */
  ghost predicate SameMemory(s: State, s': State, except: set<Frame>) {
    && (forall f :: f in s.mem ==> f in s'.mem && |s'.mem[f]| == |s.mem[f]|)
    && (forall f :: (f == ZERO_FRAME || f in Used(s.alloc)) && f in s.mem && f !in except
                    ==> f in s'.mem && s'.mem[f] == s.mem[f])
  }

  ghost predicate OnlyDir(s: State, s': State, d: DirId, dir: Dir) {
    && d in s.dirs && d in s.tables && d in s'.tables
    && s'.dirs == s.dirs[d := dir] && s'.cur == s.cur
    && s'.tables == s.tables[d := s'.tables[d]] && s.tables[d] <= s'.tables[d]
    && s'.cur in s'.dirs && s'.tlb == Walk(s'.dirs[s'.cur])
  }

  ghost predicate SameNull(s: State, s': State) {
    s'.nullMapped == s.nullMapped
  }

  /** Nothing but empty page tables in the current directory. */
  ghost predicate Unchanged(s: State, s': State) {
    && s.cur in s.dirs && OnlyDir(s, s', s.cur, s.dirs[s.cur])
    && s'.mem == s.mem && SameFrames(s.alloc, s'.alloc) && SameNull(s, s')
  }

  /** is_user_pointer_allocated on a page number that may have wrapped: kernel pages other than page 0 are present. */
  predicate Allocated(d: Dir, nullMapped: bool, p: nat) {
    var q: Page := p % NUM_PAGES;
    if q < FIRST_PAGE then q != 0 || nullMapped else q in d
  }

  predicate Overlaps(d: Dir, nullMapped: bool, b: nat, e: nat) {
    exists q :: b <= q < e && Allocated(d, nullMapped, q)
  }

  function Pages(b: nat, e: nat): (r: set<Page>)
    requires e <= NUM_PAGES
    ensures forall p: Page :: p in r <==> b <= p < e
    decreases e
  {
    if b >= e then {} else Pages(b, e - 1) + {e - 1}
  }

  /** The pages new_pages adds. */
  function ZeroRun(b: nat, e: nat): Dir
    requires e <= NUM_PAGES
  {
    map p | p in Pages(b, e) :: Pte(ZERO_FRAME, false, if p == b then Base else Continue)
  }

  /** The arguments _new_pages refuses before it looks for room. */
  predicate BadRange(base: nat, len: int) {
    base < USER_MEM_START || base % PAGE_SIZE != 0 || len <= 0 || len % PAGE_SIZE != 0
  }

  /** The arguments, the frames or an allocated page stand against it. */
  predicate Refused(s: State, base: nat, len: int)
    requires s.cur in s.dirs
  {
    BadRange(base, len) || NumFree(s.alloc) < len / PAGE_SIZE
    || Overlaps(s.dirs[s.cur], s.nullMapped, base / PAGE_SIZE, base / PAGE_SIZE + len / PAGE_SIZE)
  }

  predicate NoTable(s: State, p: Page) {
    s.cur in s.tables && PdIndex(p) !in s.tables[s.cur]
  }

  /** The last page of user memory is followed by page 0. */
  function Within(e: nat): (r: nat)
    ensures r <= NUM_PAGES && r <= e
  {
    if e <= NUM_PAGES then e else NUM_PAGES
  }

  /** new_pages on the range [b, e) after its checks, which leave no range that runs past page 0; it fails only
      for want of kernel memory for a page table. */
  ghost predicate FillStep(s: State, b: nat, e: nat, s': State, r: Result)
    requires s.cur in s.dirs
  {
    && s'.mem == s.mem && SameFrames(s.alloc, s'.alloc)
    && match r
       case Ok =>
         && OnlyDir(s, s', s.cur, s.dirs[s.cur] + ZeroRun(b, Within(e)))
         && s'.nullMapped == (s.nullMapped || e > NUM_PAGES)
         && forall p: Page :: b <= p < e ==> PdIndex(p) in s'.tables[s.cur]
       case Fail => Unchanged(s, s') && exists p: Page :: b <= p < e && NoTable(s, p)
       case _ => false
  }

  ghost predicate NewPagesStep(s: State, base: nat, len: int, s': State, r: Result)
    requires s.cur in s.dirs
  {
    if Refused(s, base, len) then r == Fail && s' == s
    else base / PAGE_SIZE < NUM_PAGES && FillStep(s, base / PAGE_SIZE, base / PAGE_SIZE + len / PAGE_SIZE, s', r)
  }

  /** The first page after the run that `p` would continue. */
  function RunEnd(d: Dir, p: nat): (e: nat)
    requires p <= NUM_PAGES
    ensures p <= e <= NUM_PAGES
    ensures forall q: Page :: p <= q < e ==> q in d && d[q].mark == Continue
    ensures e < NUM_PAGES ==> !(e in d && d[e].mark == Continue)
    decreases NUM_PAGES - p
  {
    if p < NUM_PAGES && p in d && d[p].mark == Continue then RunEnd(d, p + 1) else p
  }

  /** The directory without the pages from b up to e. */
  function WithoutPages(d: Dir, b: nat, e: nat): Dir {
    map p | p in d && !(b <= p < e) :: d[p]
  }

  function FramesOf(d: Dir): set<Frame> {
    set p | p in d && d[p].frame != ZERO_FRAME :: d[p].frame
  }

  function FramesIn(d: Dir, b: nat, e: nat): set<Frame> {
    set p | p in d && b <= p < e && d[p].frame != ZERO_FRAME :: d[p].frame
  }

  predicate RemoveRefused(d: Dir, base: nat) {
    || base < USER_MEM_START || base % PAGE_SIZE != 0 || base / PAGE_SIZE >= NUM_PAGES
    || base / PAGE_SIZE !in d || d[base / PAGE_SIZE].mark != Base
  }

  ghost predicate RemovePagesStep(s: State, base: nat, s': State, r: Result)
    requires s.cur in s.dirs
  {
    var d := s.dirs[s.cur];
    if RemoveRefused(d, base) then r == Fail && s' == s
    else
      var b := base / PAGE_SIZE;
      var e := RunEnd(d, b + 1);
      && r == Ok && OnlyDir(s, s', s.cur, WithoutPages(d, b, e)) && s'.mem == s.mem
      && Frames(s.alloc, s'.alloc, {}, FramesIn(d, b, e))
      && s'.nullMapped == (s.nullMapped && e != NUM_PAGES)
  }

  ghost predicate ReadStep(s: State, addr: nat, s': State, r: Result)
    requires s.cur in s.dirs
  {
    var d, p := s.dirs[s.cur], addr / PAGE_SIZE;
    && s' == s
    && if p < NUM_PAGES && p in d then
         d[p].frame in s.mem && addr % PAGE_SIZE < |s.mem[d[p].frame]|
         && r == Value(s.mem[d[p].frame][addr % PAGE_SIZE])
       else if p == 0 && s.nullMapped then
         ZERO_FRAME in s.mem && addr % PAGE_SIZE < |s.mem[ZERO_FRAME]|
           && r == Value(s.mem[ZERO_FRAME][addr % PAGE_SIZE])
       else r == Fault
  }

  /** A write that finds the zero frame. */
  predicate Demand(s: State, addr: nat)
    requires s.cur in s.dirs
  {
    var d, p := s.dirs[s.cur], addr / PAGE_SIZE;
    p < NUM_PAGES && p in d && !d[p].writable && d[p].frame == ZERO_FRAME
  }

  /** ... when there is no frame left to replace it. */
  predicate Exhausted(s: State, addr: nat)
    requires s.cur in s.dirs
  {
    Demand(s, addr) && NumFree(s.alloc) == 0
  }

  ghost predicate Replaced(s: State, s': State, p: Page, f: Frame, c: Content)
    requires s.cur in s.dirs && p in s.dirs[s.cur]
  {
    var d := s.dirs[s.cur];
    && OnlyDir(s, s', s.cur, d[p := Pte(f, true, d[p].mark)])
    && f in Free(s.alloc) && Frames(s.alloc, s'.alloc, {f}, {})
    && f in s'.mem && s'.mem[f] == c && SameMemory(s, s', {}) && SameNull(s, s')
  }

  ghost predicate WriteStep(s: State, addr: nat, v: Byte, s': State, r: Result)
    requires s.cur in s.dirs
  {
    var d, p, off := s.dirs[s.cur], addr / PAGE_SIZE, addr % PAGE_SIZE;
    if Demand(s, addr) then
      if Exhausted(s, addr) then
        r == Fault && OnlyDir(s, s', s.cur, d - {p}) && s'.mem == s.mem && SameFrames(s.alloc, s'.alloc)
          && SameNull(s, s')
      else
        var c := ZeroPage()[off := v];
        r == Ok && exists f :: Replaced(s, s', p, f, c)
    else if p < NUM_PAGES && p in d && d[p].writable then
      var f := d[p].frame;
      && r == Ok && f in s.mem && off < |s.mem[f]|
      && s' == s.(mem := s.mem[f := s.mem[f][off := v]])
    else r == Fault && s' == s
  }

  /** The child's pages are the parent's, with the same flags, on frames of their own with the same content. */
  ghost predicate Copied(s: State, s': State, parent: Dir, child: Dir, p: Page) {
    p in parent ==>
      && p in child && child[p].writable == parent[p].writable && child[p].mark == parent[p].mark
      && child[p].frame != ZERO_FRAME
      && parent[p].frame in s.mem && child[p].frame in s'.mem && s'.mem[child[p].frame] == s.mem[parent[p].frame]
  }

  function UserTables(t: set<nat>): set<nat> {
    set i | i in t && NUM_KERN_PAGE_TABLES <= i < ENTRIES
  }

  ghost predicate DistinctFrames(d: Dir) {
    forall p, q :: p in d && q in d && d[p].frame == d[q].frame ==> p == q
  }

  ghost predicate ForkStep(s: State, c: DirId, s': State, r: Result)
    requires s.cur in s.dirs && s.cur in s.tables
  {
    && c !in s.dirs && s'.cur == s.cur && s'.tlb == Walk(s.dirs[s.cur])
    && SameMemory(s, s', {}) && SameNull(s, s')
    && match r
       case Ok =>
         && c in s'.dirs && s'.dirs == s.dirs[c := s'.dirs[c]]
           && s'.tables == s.tables[c := UserTables(s.tables[s.cur])]
         && s'.dirs[c].Keys == s.dirs[s.cur].Keys && DistinctFrames(s'.dirs[c])
         && (forall p {:trigger Copied(s, s', s.dirs[s.cur], s'.dirs[c], p)} :: Copied(s, s', s.dirs[s.cur], s'.dirs[c], p))
         && Frames(s.alloc, s'.alloc, FramesOf(s'.dirs[c]), {})
       case Fail =>
         s'.dirs == s.dirs && s'.tables == s.tables && SameFrames(s.alloc, s'.alloc)
       case _ => false
  }

  /** A frame for each page, and kernel memory for the directory, the buffer and each page table. */
  function ForkAnswer(s: State, room: nat): Result
    requires s.cur in s.dirs && s.cur in s.tables
  {
    if |s.dirs[s.cur]| <= NumFree(s.alloc) && 2 + |UserTables(s.tables[s.cur])| <= room then Ok else Fail
  }

  ghost predicate FreeDirStep(s: State, d: DirId, s': State, r: Result) {
    && d in s.dirs && d != s.cur && r == Ok
    && s'.dirs == s.dirs - {d} && s'.tables == s.tables - {d} && s'.cur == s.cur && s'.tlb == s.tlb && s'.mem == s.mem
    && Frames(s.alloc, s'.alloc, {}, FramesOf(s.dirs[d])) && SameNull(s, s')
  }

  ghost predicate NewDirStep(s: State, d: DirId, s': State, r: Result) {
    && d !in s.dirs && r == Ok
    && s' == s.(dirs := s.dirs[d := map[]], tables := s.tables[d := {}])
  }

  /** allocate_frame as new_pd_from_elf uses it; the page table is there. */
  ghost predicate AllocateFrameStep(s: State, d: DirId, p: Page, w: bool, s': State, r: Result)
    requires s.cur in s.dirs
  {
    && d in s.dirs && d in s.tables && FIRST_PAGE <= p
    && if p in s.dirs[d] then s' == s && r == (if s.dirs[d][p].writable == w
      && s.dirs[d][p].mark == Plain then Ok else Fail)
       else if NumFree(s.alloc) == 0 then s' == s && r == Fail
       else
         && r == Ok && s'.mem == s.mem && SameNull(s, s')
         && exists f :: f in Free(s.alloc) && Frames(s.alloc, s'.alloc, {f}, {})
                        && OnlyDir(s, s', d, s.dirs[d][p := Pte(f, w, Plain)]) && PdIndex(p) in s'.tables[d]
  }

  ghost predicate Next(s: State, op: Op, s': State, r: Result) {
    s.cur in s.dirs && s.cur in s.tables &&
    match op
    case NewPages(base, len) => NewPagesStep(s, base, len, s', r)
    case RemovePages(base) => RemovePagesStep(s, base, s', r)
    case Read(addr) => ReadStep(s, addr, s', r)
    case Write(addr, v) => WriteStep(s, addr, v, s', r)
    case Fork(c, room) => ForkStep(s, c, s', r) && r == ForkAnswer(s, room)
    case Switch(d) => r == Ok && d in s.dirs && s' == s.(cur := d, tlb := Walk(s.dirs[d]))
    case NewDir(d) => NewDirStep(s, d, s', r)
    case FreeDir(d) => FreeDirStep(s, d, s', r)
    case AllocateFrame(d, p, w) => AllocateFrameStep(s, d, p, w, s', r)
  }
}
