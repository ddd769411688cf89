/** The stack a new program starts on (configure_stack in p3/kern/loader.c): argument strings, the argument
    vector and the arguments of _main, written downward from the highest address. */
module ArgStack {

  newtype Byte = b: int | 0 <= b < 256

  const USER_STR_LEN: nat := 256
  const NUM_USER_ARGS: nat := 16
  /** USER_THREAD_STACK_SIZE, two pages. */
  const STACK_SIZE: nat := 8192
  const STACK_HIGH: nat := 0xFFFF_FFFF
  const STACK_LOW: nat := 0xFFFF_E000

  /** The stack's bytes from STACK_LOW up. */
  type Stack = m: seq<Byte> | |m| == STACK_SIZE witness seq(STACK_SIZE, _ => 0)

  /** A word of the stack at an offset from STACK_LOW, lowest byte first. */
  function Word(m: seq<Byte>, i: nat): nat
    requires i + 4 <= |m|
  {
    m[i] as nat + 256 * m[i + 1] as nat + 0x1_0000 * m[i + 2] as nat + 0x100_0000 * m[i + 3] as nat
  }

  function WordByte(w: nat, k: nat): Byte {
    if k == 0 then (w % 256) as Byte
    else if k == 1 then (w / 256 % 256) as Byte
    else if k == 2 then (w / 0x1_0000 % 256) as Byte
    else (w / 0x100_0000 % 256) as Byte
  }

  lemma WordOfBytes(w: nat)
    requires w < 0x1_0000_0000
    ensures WordByte(w, 0) as nat + 256 * WordByte(w, 1) as nat + 0x1_0000 * WordByte(w, 2) as nat
            + 0x100_0000 * WordByte(w, 3) as nat == w
  {
  }

  /** The string at an offset, up to its terminator. */
  function CString(m: seq<Byte>, i: nat): seq<Byte>
    decreases |m| - i
  {
    if i >= |m| || m[i] == 0 then [] else [m[i]] + CString(m, i + 1)
  }

  predicate ValidArg(s: seq<Byte>) {
    |s| < USER_STR_LEN && forall i :: 0 <= i < |s| ==> s[i] != 0
  }

  /** What is_valid_user_argvec lets through. */
  predicate ValidArgs(argv: seq<seq<Byte>>) {
    |argv| < NUM_USER_ARGS && forall k :: 0 <= k < |argv| ==> ValidArg(argv[k])
  }

  // ------------------------------------------------------------------ where things go

  /** Offset of the slot of argv[k], and of the lowest slot for k = 0. */
  function StringAt(argc: nat, k: nat): int
  {
    STACK_SIZE - 4 - USER_STR_LEN * (argc - k)
  }

  /** Offset of the pointer to argv[k]; the null pointer is number argc. */
  function PointerAt(argc: nat, k: nat): int {
    StringAt(argc, 0) - 4 - 4 * (argc - k)
  }

  function EspAt(argc: nat): int {
    PointerAt(argc, 0) - 20
  }

  /** Everything fits in the two pages with alignment to words, and no two slots overlap. */
  lemma Fits(argc: nat, j: nat, k: nat)
    requires argc < NUM_USER_ARGS && j < k <= argc
    ensures 0 <= EspAt(argc) < PointerAt(argc, 0) - 16
    ensures PointerAt(argc, j) + 4 <= PointerAt(argc, k) && PointerAt(argc, argc) + 4 == StringAt(argc, 0)
    ensures StringAt(argc, j) + USER_STR_LEN <= StringAt(argc, k) && StringAt(argc, argc) + 4 == STACK_SIZE
    ensures (STACK_LOW + EspAt(argc)) % 4 == 0 && (STACK_LOW + PointerAt(argc, k)) % 4 == 0
            && (STACK_LOW + StringAt(argc, k)) % 4 == 0
  {
  }

  // ------------------------------------------------------------------ what a program reads back

  /** argc and argv as _main finds them above its stack pointer. */
  function ReadArgc(m: seq<Byte>, esp: nat): nat
    requires STACK_LOW <= esp && esp - STACK_LOW + 12 <= |m|
  {
    Word(m, esp - STACK_LOW + 4)
  }

  function ReadArgv(m: seq<Byte>, esp: nat): nat
    requires STACK_LOW <= esp && esp - STACK_LOW + 12 <= |m|
  {
    Word(m, esp - STACK_LOW + 8)
  }

  /** argv[k] */
  function ReadPointer(m: seq<Byte>, argv: nat, k: nat): nat
    requires STACK_LOW <= argv && argv - STACK_LOW + 4 * k + 4 <= |m|
  {
    Word(m, argv - STACK_LOW + 4 * k)
  }

  /** The string a pointer leads to; a pointer below the stack leads nowhere. */
  function ReadString(m: seq<Byte>, pointer: nat): seq<Byte> {
    if pointer < STACK_LOW then [] else CString(m, pointer - STACK_LOW)
  }

  // ------------------------------------------------------------------ the stack, piece by piece

  function Bytes(w: nat): (r: seq<Byte>)
    ensures |r| == 4
  {
    [WordByte(w, 0), WordByte(w, 1), WordByte(w, 2), WordByte(w, 3)]
  }

  function Padded(s: seq<Byte>): (r: seq<Byte>)
    requires |s| <= USER_STR_LEN
    ensures |r| == USER_STR_LEN
  {
    s + seq(USER_STR_LEN - |s|, _ => 0)
  }

  ghost predicate HasWord(m: seq<Byte>, i: int, w: nat) {
    0 <= i && i + 4 <= |m| && m[i..i + 4] == Bytes(w)
  }

  /** A string in a slot of USER_STR_LEN bytes, padded with zeros. */
  ghost predicate HasString(m: seq<Byte>, i: int, s: seq<Byte>) {
    0 <= i && i + USER_STR_LEN <= |m| && |s| < USER_STR_LEN && m[i..i + USER_STR_LEN] == Padded(s)
  }

  /** Bytes outside [lo, hi) are as before. */
  ghost predicate SameOutside(m: seq<Byte>, m': seq<Byte>, lo: int, hi: int) {
    0 <= lo <= hi <= |m| && |m'| == |m| && m'[..lo] == m[..lo] && m'[hi..] == m[hi..]
  }

  lemma SliceKept(m: seq<Byte>, m': seq<Byte>, lo: int, hi: int, i: int, j: int)
    requires SameOutside(m, m', lo, hi) && 0 <= i <= j <= |m| && (j <= lo || hi <= i)
    ensures m'[i..j] == m[i..j]
  {
    if j <= lo {
      assert m'[i..j] == m'[..lo][i..j] == m[..lo][i..j];
    } else {
      assert m'[i..j] == m'[hi..][i - hi..j - hi] == m[hi..][i - hi..j - hi];
    }
  }

  lemma HasWordIs(m: seq<Byte>, i: nat, w: nat)
    requires HasWord(m, i, w) && w < 0x1_0000_0000
    ensures Word(m, i) == w
  {
    WordOfBytes(w);
    var b := m[i..i + 4];
    assert b[0] == m[i] && b[1] == m[i + 1] && b[2] == m[i + 2] && b[3] == m[i + 3];
  }

  lemma {:induction false} CStringIs(m: seq<Byte>, i: nat, s: seq<Byte>)
    requires i + |s| < |m| && m[i..i + |s|] == s && m[i + |s|] == 0 && 0 !in s
    ensures CString(m, i) == s
    decreases |s|
  {
    if s != [] {
      assert m[i] == m[i..i + |s|][0] == s[0];
      assert m[i + 1..i + |s|] == m[i..i + |s|][1..] == s[1..];
      CStringIs(m, i + 1, s[1..]);
    }
  }

  lemma SlotIsString(m: seq<Byte>, i: nat, s: seq<Byte>)
    requires HasString(m, i, s) && ValidArg(s)
    ensures CString(m, i) == s
  {
    var slot := m[i..i + USER_STR_LEN];
    assert slot[|s|] == 0 && slot[..|s|] == s;
    assert m[i + |s|] == slot[|s|] && m[i..i + |s|] == slot[..|s|];
    CStringIs(m, i, s);
  }

  /** All strings from k up, and all pointers from j up, are in place. */
  ghost predicate StringPlaced(m: seq<Byte>, argv: seq<seq<Byte>>, k: int) {
    0 <= k < |argv| && HasString(m, StringAt(|argv|, k), argv[k])
  }

  ghost predicate Strings(m: seq<Byte>, argv: seq<seq<Byte>>, from: int) {
    forall k {:trigger StringPlaced(m, argv, k)} :: from <= k < |argv| ==> StringPlaced(m, argv, k)
  }

  ghost predicate PointerPlaced(m: seq<Byte>, argc: nat, k: int) {
    0 <= k < argc && 0 <= StringAt(argc, k) && HasWord(m, PointerAt(argc, k), STACK_LOW + StringAt(argc, k))
  }

  ghost predicate Pointers(m: seq<Byte>, argc: nat, from: int) {
    && HasWord(m, PointerAt(argc, argc), 0)
    && (forall k {:trigger PointerPlaced(m, argc, k)} :: from <= k < argc ==> PointerPlaced(m, argc, k))
  }

  /** The words below the argument vector, from the highest down. */
  function Argument(argc: nat, j: nat): nat
    requires argc < NUM_USER_ARGS
  {
    if j == 0 then STACK_LOW
    else if j == 1 then STACK_HIGH
    else if j == 2 then STACK_LOW + PointerAt(argc, 0)
    else argc
  }

  ghost predicate ArgumentPlaced(m: seq<Byte>, argc: nat, j: nat) {
    argc < NUM_USER_ARGS && HasWord(m, PointerAt(argc, 0) - 4 - 4 * j, Argument(argc, j))
  }

  ghost predicate Arguments(m: seq<Byte>, argc: nat, n: nat) {
    forall j: nat {:trigger ArgumentPlaced(m, argc, j)} :: j < n ==> ArgumentPlaced(m, argc, j)
  }

  ghost predicate Laid(m: seq<Byte>, argv: seq<seq<Byte>>) {
    Strings(m, argv, 0) && Pointers(m, |argv|, 0) && Arguments(m, |argv|, 4)
  }

  /** Writing below everything that is in place keeps it. */
  lemma StringsKept(m: seq<Byte>, m': seq<Byte>, lo: int, hi: int, argv: seq<seq<Byte>>, from: int)
    requires Strings(m, argv, from) && SameOutside(m, m', lo, hi) && 0 <= from && hi <= StringAt(|argv|, from)
    ensures Strings(m', argv, from)
  {
    forall k | from <= k < |argv|
      ensures StringPlaced(m', argv, k)
    {
      assert StringPlaced(m, argv, k);
      SliceKept(m, m', lo, hi, StringAt(|argv|, k), StringAt(|argv|, k) + USER_STR_LEN);
    }
  }

  lemma PointersKept(m: seq<Byte>, m': seq<Byte>, lo: int, hi: int, argc: nat, from: int)
    requires Pointers(m, argc, from) && SameOutside(m, m', lo, hi) && 0 <= from <= argc && hi <= PointerAt(argc, from)
    ensures Pointers(m', argc, from)
  {
    SliceKept(m, m', lo, hi, PointerAt(argc, argc), PointerAt(argc, argc) + 4);
    forall k | from <= k < argc
      ensures PointerPlaced(m', argc, k)
    {
      assert PointerPlaced(m, argc, k);
      SliceKept(m, m', lo, hi, PointerAt(argc, k), PointerAt(argc, k) + 4);
    }
  }

  lemma ArgumentsKept(m: seq<Byte>, m': seq<Byte>, lo: int, hi: int, argc: nat, n: nat)
    requires Arguments(m, argc, n) && SameOutside(m, m', lo, hi) && hi <= PointerAt(argc, 0) - 4 * n
    ensures Arguments(m', argc, n)
  {
    forall j: nat | j < n
      ensures ArgumentPlaced(m', argc, j)
    {
      assert ArgumentPlaced(m, argc, j);
      SliceKept(m, m', lo, hi, PointerAt(argc, 0) - 4 - 4 * j, PointerAt(argc, 0) - 4 * j);
    }
  }

  /** From the stack pointer a program finds argc and the argument vector ... */
  lemma ReadsArgc(m: seq<Byte>, argv: seq<seq<Byte>>)
    requires |m| == STACK_SIZE && ValidArgs(argv) && Laid(m, argv)
    ensures 0 <= EspAt(|argv|)
    ensures var esp := STACK_LOW + EspAt(|argv|);
            ReadArgc(m, esp) == |argv| && ReadArgv(m, esp) == STACK_LOW + PointerAt(|argv|, 0)
            && Word(m, esp - STACK_LOW + 12) == STACK_HIGH && Word(m, esp - STACK_LOW + 16) == STACK_LOW
  {
    var argc, at := |argv|, PointerAt(|argv|, 0);
    assert ArgumentPlaced(m, argc, 0) && ArgumentPlaced(m, argc, 1) && ArgumentPlaced(m, argc, 2)
           && ArgumentPlaced(m, argc, 3);
    HasWordIs(m, at - 4, STACK_LOW);
    HasWordIs(m, at - 8, STACK_HIGH);
    HasWordIs(m, at - 12, STACK_LOW + at);
    HasWordIs(m, at - 16, argc);
  }

  lemma PointerReads(m: seq<Byte>, argv: seq<seq<Byte>>, k: nat)
    requires |m| == STACK_SIZE && ValidArgs(argv) && Laid(m, argv) && k < |argv|
    ensures 0 <= PointerAt(|argv|, 0) && 0 <= StringAt(|argv|, k)
    ensures ReadPointer(m, STACK_LOW + PointerAt(|argv|, 0), k) == STACK_LOW + StringAt(|argv|, k)
    ensures ReadString(m, STACK_LOW + StringAt(|argv|, k)) == argv[k]
  {
    assert PointerPlaced(m, |argv|, k) && StringPlaced(m, argv, k) && ValidArg(argv[k]);
    HasWordIs(m, PointerAt(|argv|, k), STACK_LOW + StringAt(|argv|, k));
    SlotIsString(m, StringAt(|argv|, k), argv[k]);
  }

  lemma NullReads(m: seq<Byte>, argv: seq<seq<Byte>>)
    requires |m| == STACK_SIZE && ValidArgs(argv) && Laid(m, argv)
    ensures 0 <= PointerAt(|argv|, 0) && ReadPointer(m, STACK_LOW + PointerAt(|argv|, 0), |argv|) == 0
  {
    HasWordIs(m, PointerAt(|argv|, |argv|), 0);
  }

  /** ... and behind its pointers every string, with a null pointer at the end. */
  lemma ReadsBack(m: seq<Byte>, argv: seq<seq<Byte>>, k: nat)
    requires |m| == STACK_SIZE && ValidArgs(argv) && Laid(m, argv) && k <= |argv|
    ensures 0 <= EspAt(|argv|)
    ensures var vector := ReadArgv(m, STACK_LOW + EspAt(|argv|));
            && STACK_LOW <= vector && vector - STACK_LOW + 4 * k + 4 <= |m|
            && (k < |argv| ==> ReadString(m, ReadPointer(m, vector, k)) == argv[k])
            && (k == |argv| ==> ReadPointer(m, vector, k) == 0)
  {
    ReadsArgc(m, argv);
    if k < |argv| {
      PointerReads(m, argv, k);
    } else {
      NullReads(m, argv);
    }
  }

  // ------------------------------------------------------------------ the code

  /** memset and memcpy of one argument into its slot. */
  method StoreString(stack: array<Byte>, at: nat, s: seq<Byte>)
    requires at + USER_STR_LEN <= stack.Length && |s| < USER_STR_LEN
    modifies stack
    ensures HasString(stack[..], at, s) && SameOutside(old(stack[..]), stack[..], at, at + USER_STR_LEN)
  {
    var end := at + USER_STR_LEN;
    var p := at;
    while p < end
      invariant at <= p <= end
      invariant forall x :: at <= x < p ==> stack[x] == 0
      invariant stack[..at] == old(stack[..at]) && stack[end..] == old(stack[end..])
    {
      stack[p] := 0;
      p := p + 1;
    }
    var i := 0;
    while i < |s|
      invariant 0 <= i <= |s|
      invariant stack[at..at + i] == s[..i]
      invariant forall x :: at + |s| <= x < end ==> stack[x] == 0
      invariant stack[..at] == old(stack[..at]) && stack[end..] == old(stack[end..])
    {
      stack[at + i] := s[i];
      i := i + 1;
      assert stack[at..at + i] == stack[at..at + i - 1] + [s[i - 1]];
    }
    assert stack[at..end] == stack[at..at + |s|] + stack[at + |s|..end];
    assert stack[..][at..end] == stack[at..end] == Padded(s);
    assert stack[..][..at] == stack[..at] && stack[..][end..] == stack[end..];
    assert old(stack[..])[..at] == old(stack[..at]) && old(stack[..])[end..] == old(stack[end..]);
  }

  /** A 32-bit store. */
  method StoreWord(stack: array<Byte>, at: nat, w: nat)
    requires at + 4 <= stack.Length
    modifies stack
    ensures HasWord(stack[..], at, w) && SameOutside(old(stack[..]), stack[..], at, at + 4)
  {
    stack[at] := WordByte(w, 0);
    stack[at + 1] := WordByte(w, 1);
    stack[at + 2] := WordByte(w, 2);
    stack[at + 3] := WordByte(w, 3);
  }

  /** The first loop: the strings, last first. */
  method StoreStrings(stack: array<Byte>, argv: seq<seq<Byte>>) returns (at: nat)
    requires stack.Length == STACK_SIZE && ValidArgs(argv)
    modifies stack
    ensures at == StringAt(|argv|, 0) && Strings(stack[..], argv, 0)
  {
    at := STACK_SIZE - 4;
    var i := 0;
    while i < |argv|
      invariant 0 <= i <= |argv| && at == StringAt(|argv|, |argv| - i)
      invariant Strings(stack[..], argv, |argv| - i)
    {
      ghost var m := stack[..];
      at := at - USER_STR_LEN;
      assert ValidArg(argv[|argv| - 1 - i]);
      StoreString(stack, at, argv[|argv| - 1 - i]);
      StringsKept(m, stack[..], at, at + USER_STR_LEN, argv, |argv| - i);
      assert StringPlaced(stack[..], argv, |argv| - 1 - i);
      i := i + 1;
    }
  }

  /** One turn of the second loop: the pointer to argv[k]. */
  method StorePointer(stack: array<Byte>, argv: seq<seq<Byte>>, at: nat, k: nat) returns (below: nat)
    requires stack.Length == STACK_SIZE && ValidArgs(argv) && k < |argv| && at == PointerAt(|argv|, k + 1)
    requires Strings(stack[..], argv, 0) && Pointers(stack[..], |argv|, k + 1)
    modifies stack
    ensures below == PointerAt(|argv|, k)
    ensures Strings(stack[..], argv, 0) && Pointers(stack[..], |argv|, k)
  {
    ghost var m := stack[..];
    below := at - 4;
    StoreWord(stack, below, STACK_LOW + StringAt(|argv|, k));
    StringsKept(m, stack[..], below, at, argv, 0);
    PointersKept(m, stack[..], below, at, |argv|, k + 1);
    assert PointerPlaced(stack[..], |argv|, k);
  }

  /** The second loop: the null pointer and the pointers, last first. */
  method StorePointers(stack: array<Byte>, argv: seq<seq<Byte>>) returns (at: nat)
    requires stack.Length == STACK_SIZE && ValidArgs(argv) && Strings(stack[..], argv, 0)
    modifies stack
    ensures at == PointerAt(|argv|, 0) && Strings(stack[..], argv, 0) && Pointers(stack[..], |argv|, 0)
  {
    ghost var m := stack[..];
    at := StringAt(|argv|, 0) - 4;
    StoreWord(stack, at, 0);
    StringsKept(m, stack[..], at, at + 4, argv, 0);
    var i := 0;
    while i < |argv|
      invariant 0 <= i <= |argv| && at == PointerAt(|argv|, |argv| - i)
      invariant Strings(stack[..], argv, 0) && Pointers(stack[..], |argv|, |argv| - i)
    {
      at := StorePointer(stack, argv, at, |argv| - 1 - i);
      i := i + 1;
    }
  }

  /** The next word below the argument vector. */
  method Push(stack: array<Byte>, argv: seq<seq<Byte>>, at: nat, w: nat, ghost n: nat) returns (below: nat)
    requires stack.Length == STACK_SIZE && ValidArgs(argv) && n < 4
    requires at == PointerAt(|argv|, 0) - 4 * n && w == Argument(|argv|, n)
    requires Strings(stack[..], argv, 0) && Pointers(stack[..], |argv|, 0) && Arguments(stack[..], |argv|, n)
    modifies stack
    ensures below == at - 4
    ensures Strings(stack[..], argv, 0) && Pointers(stack[..], |argv|, 0) && Arguments(stack[..], |argv|, n + 1)
  {
    ghost var m := stack[..];
    below := at - 4;
    StoreWord(stack, below, w);
    StringsKept(m, stack[..], below, at, argv, 0);
    PointersKept(m, stack[..], below, at, |argv|, 0);
    ArgumentsKept(m, stack[..], below, at, |argv|, n);
    assert ArgumentPlaced(stack[..], |argv|, n);
  }

  /** configure_stack: every store is inside the two pages, and what it leaves reads back as argc and argv. */
  method ConfigureStack(stack: array<Byte>, argv: seq<seq<Byte>>) returns (esp: nat)
    requires stack.Length == STACK_SIZE && ValidArgs(argv)
    modifies stack
    ensures Laid(stack[..], argv)
    ensures esp == STACK_LOW + EspAt(|argv|) && esp % 4 == 0 && STACK_LOW <= esp <= STACK_HIGH
  {
    var at := StoreStrings(stack, argv);
    at := StorePointers(stack, argv);
    var argvArg := STACK_LOW + at;
    at := Push(stack, argv, at, STACK_LOW, 0);
    at := Push(stack, argv, at, STACK_HIGH, 1);
    at := Push(stack, argv, at, argvArg, 2);
    at := Push(stack, argv, at, |argv|, 3);
    esp := STACK_LOW + at - 4;
  }
}
