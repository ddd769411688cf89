/** A run in which a write finds no frame and leaves a page that continues nothing.  The machine has two frames;
    new_pages grants two runs of two pages because it counts the frames that are free, not those promised. */
module VmLimits {
  import opened PhysAlloc
  import opened PageTable
  import opened Vm
  import opened VmProofs
  import opened VmTheorems

  const A: Page := 4096
  const B: Page := 4100

  function Ram(): map<Frame, Content> {
    map[ZERO_FRAME := ZeroPage(), 4097 := ZeroPage(), 4098 := ZeroPage()]
  }

  /** The address space 0, where the first `n` frames have been given out. */
  function At(d: Dir, n: nat, mem: map<Frame, Content>): State {
    State(map[0 := d], map[0 := {4}], 0, Walk(d), mem, Alloc(FIRST_FRAME + n, FIRST_FRAME + 2, [], STACK_LEN, {}), false)
  }

  function Booted(): State {
    State(map[0 := map[]], map[0 := {}], 0, {}, Ram(), Alloc(FIRST_FRAME, FIRST_FRAME + 2, [], STACK_LEN, {}), false)
  }

  function Dir1(): Dir {
    ZeroRun(A, A + 2)
  }

  function Dir2(): Dir {
    Dir1() + ZeroRun(B, B + 2)
  }

  function Dir3(): Dir
    requires B in Dir2()
  {
    Dir2()[B := Pte(4097, true, Dir2()[B].mark)]
  }

  function Dir4(): Dir
    requires B in Dir2() && B + 1 in Dir3()
  {
    Dir3()[B + 1 := Pte(4098, true, Dir3()[B + 1].mark)]
  }

  function One(): Content {
    ZeroPage()[0 := 1]
  }

  function Ram1(): map<Frame, Content> {
    Ram()[4097 := One()]
  }

  function Ram2(): map<Frame, Content> {
    Ram1()[4098 := One()]
  }

  lemma DirsAre()
    ensures forall p: Page :: p in Dir2() <==> A <= p < A + 2 || B <= p < B + 2
    ensures forall p: Page :: p in Dir2() ==> Dir2()[p] == Pte(ZERO_FRAME, false, if p == A
            || p == B then Base else Continue)
    ensures forall p: Page :: p in Dir1() <==> A <= p < A + 2
  {
  }

  lemma UsedIs(n: nat)
    requires n <= 2
    ensures var a := Alloc(FIRST_FRAME + n, FIRST_FRAME + 2, [], STACK_LEN, {});
            PhysAlloc.Valid(a) && Used(a) == Below(FIRST_FRAME, FIRST_FRAME + n) && NumFree(a) == 2 - n
            && Free(a) == Below(FIRST_FRAME + n, FIRST_FRAME + 2)
  {
  }

  lemma Step1()
    ensures Next(Booted(), NewPages(A * PAGE_SIZE, 2 * PAGE_SIZE), At(Dir1(), 0, Ram()), Ok)
  {
    var s, s' := Booted(), At(Dir1(), 0, Ram());
    UsedIs(0);
    forall q | A <= q < A + 2
      ensures !Allocated(map[], false, q)
    {
    }
    assert map[] + Dir1() == Dir1();
    assert s.dirs[0 := Dir1()] == s'.dirs && s.tables[0 := s'.tables[0]] == s'.tables;
  }

  lemma Step2()
    ensures Next(At(Dir1(), 0, Ram()), NewPages(B * PAGE_SIZE, 2 * PAGE_SIZE), At(Dir2(), 0, Ram()), Ok)
  {
    var s, s' := At(Dir1(), 0, Ram()), At(Dir2(), 0, Ram());
    UsedIs(0);
    DirsAre();
    forall q | B <= q < B + 2
      ensures !Allocated(Dir1(), false, q)
    {
    }
    assert s.dirs[0 := Dir2()] == s'.dirs && s.tables[0 := s'.tables[0]] == s'.tables;
  }

  /** A write that gets a frame. */
  lemma Filled(d: Dir, p: Page, n: nat, mem: map<Frame, Content>)
    requires p in d && d[p] == Pte(ZERO_FRAME, false, d[p].mark) && n < 2
    requires mem.Keys == Ram().Keys && forall f :: f in mem ==> |mem[f]| == PAGE_SIZE
    ensures var d' := d[p := Pte(FIRST_FRAME + n, true, d[p].mark)];
            Next(At(d, n, mem), Write(p * PAGE_SIZE, 1), At(d', n + 1, mem[FIRST_FRAME + n := One()]), Ok)
  {
    var f: Frame := FIRST_FRAME + n;
    var d' := d[p := Pte(f, true, d[p].mark)];
    var s, s' := At(d, n, mem), At(d', n + 1, mem[f := One()]);
    UsedIs(n);
    UsedIs(n + 1);
    assert p * PAGE_SIZE / PAGE_SIZE == p && p * PAGE_SIZE % PAGE_SIZE == 0;
    assert s.dirs[0 := d'] == s'.dirs && s.tables[0 := s.tables[0]] == s'.tables;
    assert Below(FIRST_FRAME, f + 1) == Below(FIRST_FRAME, f) + {f};
    assert Replaced(s, s', p, f, One());
  }

  lemma Step3()
    ensures B in Dir2() && Next(At(Dir2(), 0, Ram()), Write(B * PAGE_SIZE, 1), At(Dir3(), 1, Ram1()), Ok)
  {
    DirsAre();
    Filled(Dir2(), B, 0, Ram());
  }

  lemma Step4()
    ensures B in Dir2() && B + 1 in Dir3()
    ensures Next(At(Dir3(), 1, Ram1()), Write((B + 1) * PAGE_SIZE, 1), At(Dir4(), 2, Ram2()), Ok)
  {
    DirsAre();
    Filled(Dir3(), B + 1, 1, Ram1());
  }

  /** A write to the base of a run that gets none. */
  lemma Starved(d: Dir, p: Page, mem: map<Frame, Content>)
    requires p in d && d[p] == Pte(ZERO_FRAME, false, Base) && p + 1 < NUM_PAGES && p + 1 in d
             && d[p + 1].mark == Continue
    ensures Next(At(d, 2, mem), Write(p * PAGE_SIZE, 1), At(d - {p}, 2, mem), Fault)
    ensures Breaks(At(d, 2, mem), Write(p * PAGE_SIZE, 1))
  {
    UsedIs(2);
    var s, s' := At(d, 2, mem), At(d - {p}, 2, mem);
    assert p * PAGE_SIZE / PAGE_SIZE == p;
    assert s.dirs[0 := d - {p}] == s'.dirs && s.tables[0 := s.tables[0]] == s'.tables;
    assert Exhausted(s, p * PAGE_SIZE);
  }

  lemma Step5()
    ensures B in Dir2() && B + 1 in Dir3()
    ensures Next(At(Dir4(), 2, Ram2()), Write(A * PAGE_SIZE, 1), At(Dir4() - {A}, 2, Ram2()), Fault)
    ensures Breaks(At(Dir4(), 2, Ram2()), Write(A * PAGE_SIZE, 1))
  {
    DirsAre();
    Starved(Dir4(), A, Ram2());
  }

  lemma BootedBoots()
    ensures Boots(Booted(), 0, FIRST_FRAME + 2)
  {
    UsedIs(0);
    forall f
      ensures MemOk(Booted(), f)
    {
    }
  }

  /** Four user calls that succeed and one write that breaks a run. */
  ghost predicate Story(s: State, e1: Event, e2: Event, e3: Event, e4: Event, e5: Event) {
    && Next(s, e1.op, e1.after, Ok) && Next(e1.after, e2.op, e2.after, Ok)
    && Next(e2.after, e3.op, e3.after, Ok) && Next(e3.after, e4.op, e4.after, Ok)
    && Next(e4.after, e5.op, e5.after, Fault) && Breaks(e4.after, e5.op)
    && e1.result == e2.result == e3.result == e4.result == Ok && e5.result == Fault
  }

  lemma StoryRuns(s: State, e1: Event, e2: Event, e3: Event, e4: Event, e5: Event)
    requires Story(s, e1, e2, e3, e4, e5)
    ensures IsRun(s, [e1, e2, e3, e4, e5])
  {
    assert [e1, e2, e3, e4, e5][1..] == [e2, e3, e4, e5];
    assert [e2, e3, e4, e5][1..] == [e3, e4, e5];
    assert [e3, e4, e5][1..] == [e4, e5];
    assert [e4, e5][1..] == [e5];
    assert [e5][1..] == [];
    assert IsRun(e4.after, [e5]);
    assert IsRun(e3.after, [e4, e5]);
    assert IsRun(e2.after, [e3, e4, e5]);
    assert IsRun(e1.after, [e2, e3, e4, e5]);
  }

  lemma OkKeepsRuns(s: State, e: Event)
    requires AllRuns(s) && Next(s, e.op, e.after, Ok)
    ensures AllRuns(e.after)
  {
    RunsKeptIff(s, e.op, e.after, Ok);
  }

  lemma StoryBreaks(s: State, e1: Event, e2: Event, e3: Event, e4: Event, e5: Event)
    requires AllRuns(s) && Story(s, e1, e2, e3, e4, e5)
    ensures AllRuns(e4.after) && !AllRuns(e5.after)
  {
    OkKeepsRuns(s, e1);
    OkKeepsRuns(e1.after, e2);
    OkKeepsRuns(e2.after, e3);
    OkKeepsRuns(e3.after, e4);
    RunsKeptIff(e4.after, e5.op, e5.after, Fault);
  }

  lemma TheStory() returns (e1: Event, e2: Event, e3: Event, e4: Event, e5: Event)
    ensures Story(Booted(), e1, e2, e3, e4, e5)
    ensures e1.op.NewPages? && e2.op.NewPages? && e3.op.Write? && e4.op.Write? && e5.op.Write?
  {
    Step1();
    Step2();
    Step3();
    Step4();
    Step5();
    e1 := Event(NewPages(A * PAGE_SIZE, 2 * PAGE_SIZE), Ok, At(Dir1(), 0, Ram()));
    e2 := Event(NewPages(B * PAGE_SIZE, 2 * PAGE_SIZE), Ok, At(Dir2(), 0, Ram()));
    e3 := Event(Write(B * PAGE_SIZE, 1), Ok, At(Dir3(), 1, Ram1()));
    e4 := Event(Write((B + 1) * PAGE_SIZE, 1), Ok, At(Dir4(), 2, Ram2()));
    e5 := Event(Write(A * PAGE_SIZE, 1), Fault, At(Dir4() - {A}, 2, Ram2()));
  }

  /** A run of two new_pages and three writes from the start of the machine: the last write, and only that one,
      leaves a page that continues nothing.  What every operation keeps holds all the same. */
  lemma WriteBreaksRun() returns (s: State, run: seq<Event>)
    ensures Boots(s, 0, FIRST_FRAME + 2) && IsRun(s, run) && |run| == 5
    ensures forall i :: 0 <= i < 5 ==> run[i].op.NewPages? || run[i].op.Write?
    ensures AllRuns(run[3].after) && !AllRuns(Final(s, run)) && Inv(Final(s, run))
  {
    s := Booted();
    BootedBoots();
    BootInv(s, 0, FIRST_FRAME + 2);
    var e1, e2, e3, e4, e5 := TheStory();
    run := [e1, e2, e3, e4, e5];
    StoryRuns(s, e1, e2, e3, e4, e5);
    StoryBreaks(s, e1, e2, e3, e4, e5);
    RunInv(s, run);
  }
}
