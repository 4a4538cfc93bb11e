/** The access test: the enumeration of flag vectors, and the page-table entry it prepares with
    the fault and the entry it expects afterwards. */
module AccessTest {
  import opened Radix

  // ---------- ac_test_bump and the loop of ac_test_run ----------

  function Pow2(n: nat): (p: nat)
    ensures p > 0
  {
    if n == 0 then 1 else 2 * Pow2(n - 1)
  }

  function Bit(b: bool): nat {
    if b then 1 else 0
  }

  /** The number a flag vector stands for, flag 0 being the lowest bit. */
  function Number(flags: seq<bool>): (k: nat)
    ensures k < Pow2(|flags|)
  {
    if flags == [] then 0 else Bit(flags[0]) + 2 * Number(flags[1..])
  }

  lemma {:induction false} NumberInjective(a: seq<bool>, b: seq<bool>)
    requires |a| == |b| && Number(a) == Number(b)
    ensures a == b
  {
    if a != [] {
      assert Number(a) % 2 == Bit(a[0]) && Number(b) % 2 == Bit(b[0]);
      NumberInjective(a[1..], b[1..]);
      assert a == [a[0]] + a[1..] && b == [b[0]] + b[1..];
    }
  }

  /** Adding one clears the low ones and sets the first zero. */
  lemma {:induction false} BumpNumber(a: seq<bool>, b: seq<bool>, i: nat)
    requires |a| == |b| && i <= |a| && (forall k | 0 <= k < i :: a[k] && !b[k])
    requires i < |a| ==> !a[i] && b[i] && a[i + 1..] == b[i + 1..]
    ensures if i < |a| then Number(b) == Number(a) + 1 else Number(a) == Pow2(|a|) - 1 && Number(b) == 0
  {
    if a != [] && i > 0 {
      assert i < |a| ==> a[1..][i - 1 + 1..] == a[i + 1..] && b[1..][i - 1 + 1..] == b[i + 1..];
      BumpNumber(a[1..], b[1..], i - 1);
    } else if a != [] {
      assert a[1..] == a[0 + 1..] && b[1..] == b[0 + 1..];
    }
  }

  /** `ac_test_bump`, for any number of flags */
  method Bump(flags: array<bool>) returns (more: bool)
    modifies flags
    ensures more <==> Number(old(flags[..])) + 1 < Pow2(flags.Length)
    ensures Number(flags[..]) == if more then Number(old(flags[..])) + 1 else 0
  {
    for i := 0 to flags.Length
      invariant forall k | 0 <= k < i :: old(flags[k]) && !flags[k]
      invariant forall k | i <= k < flags.Length :: flags[k] == old(flags[k])
    {
      if !flags[i] {
        flags[i] := true;
        assert old(flags[..])[i + 1..] == flags[..][i + 1..];
        BumpNumber(old(flags[..]), flags[..], i);
        return true;
      } else {
        flags[i] := false;
      }
    }
    BumpNumber(old(flags[..]), flags[..], flags.Length);
    return false;
  }

  lemma {:induction false} AllClear(flags: seq<bool>)
    ensures Number(flags) == 0 <==> forall i | 0 <= i < |flags| :: !flags[i]
  {
    if flags != [] {
      AllClear(flags[1..]);
      if Number(flags) == 0 {
        forall i | 0 <= i < |flags|
          ensures !flags[i]
        {
          assert i > 0 ==> flags[i] == flags[1..][i - 1];
        }
      }
    }
  }

  /** The loop of `ac_test_run`: `visited` are the vectors the test is executed with, in order.
      Every vector of that length occurs exactly once, and all flags end up clear. */
  method Enumerate(flags: array<bool>) returns (ghost visited: seq<seq<bool>>)
    modifies flags
    ensures forall i | 0 <= i < flags.Length :: !flags[i]
    ensures |visited| == Pow2(flags.Length)
    ensures forall i | 0 <= i < |visited| :: |visited[i]| == flags.Length && Number(visited[i]) == i
    ensures forall v: seq<bool> | |v| == flags.Length :: visited[Number(v)] == v
  {
    for i := 0 to flags.Length
      invariant forall k | 0 <= k < i :: !flags[k]
    {
      flags[i] := false;
    }
    AllClear(flags[..]);
    visited := [];
    var more := true;
    while more
      invariant |visited| == if more then Number(flags[..]) else Pow2(flags.Length)
      invariant !more ==> Number(flags[..]) == 0
      invariant forall i | 0 <= i < |visited| :: |visited[i]| == flags.Length && Number(visited[i]) == i
      decreases Pow2(flags.Length) - |visited|, more
    {
      visited := visited + [flags[..]];
      more := Bump(flags);
    }
    AllClear(flags[..]);
    forall v: seq<bool> | |v| == flags.Length
      ensures visited[Number(v)] == v
    {
      NumberInjective(visited[Number(v)], v);
    }
  }

  // ---------- ac_test_setup_pte ----------

  /** Frames an entry can name with the 40-bit address mask. */
  const FRAMES: nat := 0x1000_0000

  const PRESENT: nat := 0
  const WRITABLE: nat := 1
  const USER: nat := 2
  const ACCESSED: nat := 3
  const DIRTY: nat := 4
  const ACCESS_USER: nat := 5
  const ACCESS_WRITE: nat := 6
  const CR0_WP: nat := 7
  const FLAGS: nat := 8

  /** An address or entry without its low twelve bits and the bits above the mask, as a frame number. */
  function FrameOf(w: nat): nat {
    w / 4096 % FRAMES
  }

  /** The frame the processor reads from an entry, bits 12-51. */
  function ProcessorFrame(w: nat): nat {
    w / 4096 % 0x100_0000_0000
  }

  /** `w | PT_WRITABLE_MASK | PT_USER_MASK` for a present entry `w`. */
  function Opened(w: nat): nat {
    w / 8 * 8 + 7
  }

  lemma OpenedFields(w: nat)
    ensures FrameOf(Opened(w)) == FrameOf(w) && Opened(w) % 2 == 1 && Opened(w) / 2 % 2 == 1 && Opened(w) / 4 % 2 == 1
    ensures Large(Opened(w)) == Large(w) && ProcessorFrame(Opened(w)) == ProcessorFrame(w)
  {
    var q := w / 8;
    DivIs(Opened(w), 2, 4 * q + 3, 1);
    DivIs(Opened(w), 4, 2 * q + 1, 3);
    DivIs(4 * q + 3, 2, 2 * q + 1, 1);
    DivIs(2 * q + 1, 2, q, 1);
    var h, r := w / 4096, w % 4096;
    assert q == 512 * h + r / 8;
    DivIs(Opened(w), 128, q / 16, q % 16 * 8 + 7);
    DivIs(w, 128, q / 16, q % 16 * 8 + w % 8);
    DivIs(Opened(w), 4096, h, r / 8 * 8 + 7);
  }

  /** The entry the code leaves at an upper level: the one there, or a new table from the pool. */
  function UpperEntry(w: nat, pool: nat): nat {
    Opened(if w % 2 == 1 then w else 4096 * pool + 1)
  }

  /** The tables on the path of `virt`, from the one of `level` down, when the next table to be
      handed out is frame `pool`. */
  ghost function Path(mem: Blocks, table: nat, virt: nat, pool: nat, level: nat): seq<nat>
    requires 1 <= level <= 4
    decreases level
  {
    if level == 1 || table !in mem || |mem[table]| != 512 then [table]
    else
      var w := mem[table][Index(virt, level)];
      [table] + Path(mem, FrameOf(UpperEntry(w, pool)), virt, if w % 2 == 1 then pool else pool + 1, level - 1)
  }

  /** The path can be walked, no table occurs on it twice, and no large page ends it early; entries
      already there name frames within the mask. */
  ghost predicate Walkable(mem: Blocks, path: seq<nat>, virt: nat, level: nat)
    requires level <= 4
  {
    && (forall i | 0 <= i < |path| :: path[i] in mem && |mem[path[i]]| == 512)
    && (forall i, j | 0 <= i < j < |path| :: path[i] != path[j])
    && (forall i | 0 <= i < |path| && i < level - 1 :: Followable(mem[path[i]][Index(virt, level - i)]))
  }

  predicate Followable(w: nat) {
    !Large(w) && (w % 2 == 1 ==> ProcessorFrame(w) < FRAMES)
  }

  /** Bit 7, the page-size bit */
  predicate Large(w: nat) {
    w / 128 % 2 == 1
  }

  /** How an access comes out: with a page fault and its error code, or leaving an entry. */
  datatype Outcome = Fault(error: nat) | Done(pte: nat)

  datatype Rights = Rights(present: bool, writable: bool, user: bool, leaf: nat)

  /** The rights the processor derives from the entries of all four levels (sections 4.5 and 4.6
      of the Intel SDM, volume 3A): the leaf counts as present only if every level is. */
  ghost function Derived(mem: Blocks, table: nat, virt: nat, level: nat): Rights
    requires 1 <= level <= 4
    decreases level
  {
    if table !in mem || |mem[table]| != 512 then Rights(false, false, false, 0)
    else
      var w := mem[table][Index(virt, level)];
      if level == 1 || Large(w) then Rights(w % 2 == 1, w / 2 % 2 == 1, w / 4 % 2 == 1, w)
      else
        var r := Derived(mem, ProcessorFrame(w), virt, level - 1);
        Rights(w % 2 == 1 && r.present, w / 2 % 2 == 1 && r.writable, w / 4 % 2 == 1 && r.user, r.leaf)
  }

  /** The one rule for an access: supervisor writes ignore the writable bit unless CR0.WP is set;
      a fault reports presence, write and user; a permitted access sets the accessed bit, and a
      permitted write the dirty bit. */
  function Rule(r: Rights, user: bool, write: bool, wp: bool): Outcome {
    if r.present && (user ==> r.user) && (write && (user || wp) ==> r.writable)
    then Done(SetBit(if write then SetBit(r.leaf, 64) else r.leaf, 32))
    else Fault(Bit(r.present) + 2 * Bit(write) + 4 * Bit(user))
  }

  /** The leaf entry for the flags. */
  function LeafEntry(frame: nat, f: seq<bool>): nat
    requires |f| == FLAGS
  {
    4096 * frame + Bit(f[PRESENT]) + 2 * Bit(f[WRITABLE]) + 4 * Bit(f[USER])
    + 32 * Bit(f[ACCESSED]) + 64 * Bit(f[DIRTY])
  }

  /** The entry holds the flags in the processor's bits, and the frame above them. */
  lemma LeafFields(frame: nat, f: seq<bool>)
    requires |f| == FLAGS
    ensures var w := LeafEntry(frame, f);
            && (w % 2 == 1 <==> f[PRESENT]) && (w / 2 % 2 == 1 <==> f[WRITABLE]) && (w / 4 % 2 == 1 <==> f[USER])
            && (w / 32 % 2 == 1 <==> f[ACCESSED]) && (w / 64 % 2 == 1 <==> f[DIRTY]) && w / 4096 == frame
  {
    var q := 512 * frame + 4 * Bit(f[ACCESSED]) + 8 * Bit(f[DIRTY]);
    LowFlags(Bit(f[PRESENT]), Bit(f[WRITABLE]), Bit(f[USER]), q);
    HighFlags(frame, Bit(f[PRESENT]) + 2 * Bit(f[WRITABLE]) + 4 * Bit(f[USER]), Bit(f[ACCESSED]), Bit(f[DIRTY]));
  }

  lemma LowFlags(p: nat, x: nat, u: nat, q: nat)
    requires p < 2 && x < 2 && u < 2
    ensures var w := p + 2 * x + 4 * u + 8 * q; w % 2 == p && w / 2 % 2 == x && w / 4 % 2 == u
  {
    var w := p + 2 * x + 4 * u + 8 * q;
    DivIs(w, 2, 4 * q + 2 * u + x, p);
    DivIs(w, 4, 2 * q + u, 2 * x + p);
    DivIs(4 * q + 2 * u + x, 2, 2 * q + u, x);
    DivIs(2 * q + u, 2, q, u);
  }

  lemma HighFlags(frame: nat, low: nat, a: nat, d: nat)
    requires low < 8 && a < 2 && d < 2
    ensures var w := 4096 * frame + low + 32 * a + 64 * d; w / 32 % 2 == a && w / 64 % 2 == d && w / 4096 == frame
  {
    var w := 4096 * frame + low + 32 * a + 64 * d;
    DivIs(w, 32, 128 * frame + 2 * d + a, low);
    DivIs(128 * frame + 2 * d + a, 2, 64 * frame + d, a);
    DivIs(w, 64, 64 * frame + d, low + 32 * a);
    DivIs(64 * frame + d, 2, 32 * frame, d);
    DivIs(w, 4096, frame, low + 32 * a + 64 * d);
  }

  class Test {
    const flags: array<bool>
    /** Guest memory by frame, 512 words a page. */
    var mem: Blocks
    var cr3: nat
    var virt: nat
    var phys: nat
    var ptPool: nat
    var expectedPte: nat
    var expectedFault: bool
    var expectedError: nat

    constructor (flags: array<bool>, mem: Blocks, cr3: nat, virt: nat, phys: nat, ptPool: nat)
      ensures this.flags == flags && this.mem == mem && this.cr3 == cr3 && this.virt == virt
      ensures this.phys == phys && this.ptPool == ptPool
    {
      this.flags, this.mem, this.cr3, this.virt, this.phys, this.ptPool := flags, mem, cr3, virt, phys, ptPool;
      expectedPte, expectedFault, expectedError := 0, false, 0;
    }

    /** The outcome the test will compare with what happens; an entry that faulted must be unchanged. */
    function Expected(): Outcome
      reads this
    {
      if expectedFault then Fault(expectedError) else Done(expectedPte)
    }

    /** The second half of `ac_test_setup_pte`: the expected outcome, in stages. The bits of the
        error code are set at most once each. */
    method Expect(pte: nat)
      requires flags.Length == FLAGS
      modifies this`expectedPte, this`expectedFault, this`expectedError
      ensures Expected() == Rule(Rights(flags[PRESENT], flags[WRITABLE], flags[USER], pte),
                                 flags[ACCESS_USER], flags[ACCESS_WRITE], flags[CR0_WP])
      ensures expectedFault ==> expectedPte == pte
    {
      expectedPte := pte;
      expectedFault := false;
      expectedError := 0;
      if !flags[PRESENT] {
        expectedFault := true;
      } else {
        expectedError := expectedError + 1;
      }
      if flags[ACCESS_USER] {
        expectedError := expectedError + 4;
        if !flags[USER] {
          expectedFault := true;
        }
      }
      if flags[ACCESS_WRITE] {
        expectedError := expectedError + 2;
        if !flags[WRITABLE] && (flags[CR0_WP] || flags[ACCESS_USER]) {
          expectedFault := true;
        } else if !expectedFault {
          expectedPte := SetBit(expectedPte, 64);
        }
      }
      if !expectedFault {
        expectedPte := SetBit(expectedPte, 32);
      }
    }

    /** `ac_test_alloc_pt` */
    method AllocPt() returns (frame: nat)
      modifies this`ptPool
      ensures frame == old(ptPool) && ptPool == old(ptPool) + 1
    {
      frame := ptPool;
      ptPool := ptPool + 1;
    }

    /** One turn of the loop of `ac_test_setup_pte` above the last level. */
    method OpenEntry(table: nat, level: nat) returns (next: nat)
      requires 2 <= level <= 4 && table in mem && |mem[table]| == 512
      modifies this`mem, this`ptPool
      ensures var w := old(mem)[table][Index(virt, level)];
              && mem == Put(old(mem), table, Index(virt, level), UpperEntry(w, old(ptPool)))
              && next == FrameOf(UpperEntry(w, old(ptPool)))
              && ptPool == if w % 2 == 1 then old(ptPool) else old(ptPool) + 1
    {
      var pte := mem[table][Index(virt, level)];
      if pte % 2 == 0 {
        var frame := AllocPt();
        pte := 4096 * frame + 1;
      }
      pte := Opened(pte);
      mem := Put(mem, table, Index(virt, level), pte);
      next := FrameOf(mem[table][Index(virt, level)]);
    }

    /** The turn of the last level, up to the store. */
    method LeafPte() returns (pte: nat)
      requires flags.Length == FLAGS
      ensures pte == LeafEntry(phys, flags[..])
    {
      pte := 4096 * phys;
      if flags[PRESENT] {
        pte := pte + 1;
      }
      if flags[WRITABLE] {
        pte := pte + 2;
      }
      if flags[USER] {
        pte := pte + 4;
      }
      if flags[ACCESSED] {
        pte := pte + 32;
      }
      if flags[DIRTY] {
        pte := pte + 64;
      }
    }

    /** `ac_test_setup_pte`: whatever the tables held, the path is opened for every access, so
        that the rights the processor derives are those of the leaf flags alone; and what the
        test expects is what the rule says of those rights. */
    method SetupPte()
      requires flags.Length == FLAGS && phys < FRAMES && ptPool + 3 <= FRAMES
      requires Walkable(mem, Path(mem, cr3, virt, ptPool, 4), virt, 4)
      modifies this`mem, this`ptPool, this`expectedPte, this`expectedFault, this`expectedError
      ensures Derived(mem, cr3, virt, 4)
           == Rights(flags[PRESENT], flags[WRITABLE], flags[USER], LeafEntry(phys, flags[..]))
      ensures expectedFault ==> expectedPte == LeafEntry(phys, flags[..])
      ensures Expected() == Rule(Derived(mem, cr3, virt, 4), flags[ACCESS_USER], flags[ACCESS_WRITE], flags[CR0_WP])
    {
      hide Index, UpperEntry, FrameOf, Rule, Walkable, Large, Derived, Progress, LeafEntry, SetBit, Path;
      ghost var path := Path(mem, cr3, virt, ptPool, 4);
      PathLength(mem, cr3, virt, ptPool, 4);
      Start(mem, path, virt);
      var level, table := 4, cr3;
      while level > 1
        invariant 1 <= level <= 4 && |path| == 4 && table == path[4 - level]
        invariant path[4 - level..] == Path(old(mem), table, virt, ptPool, level)
        invariant Progress(old(mem), mem, path, virt, 4 - level) && ptPool <= old(ptPool) + 4 - level
      {
        Turn(old(mem), mem, path, virt, ptPool, level);
        table := OpenEntry(table, level);
        level := level - 1;
      }
      LastTurn(old(mem), mem, path, virt, LeafEntry(phys, flags[..]));
      var pte := LeafPte();
      mem := Put(mem, table, Index(virt, level), pte);
      LeafFields(phys, flags[..]);
      Expect(mem[table][Index(virt, level)]);
    }
  }

  // ---------- The path as it is rewritten ----------

  lemma TailWalkable(mem: Blocks, path: seq<nat>, virt: nat, level: nat)
    requires 1 <= level <= 4 && |path| >= 1 && Walkable(mem, path, virt, level)
    ensures Walkable(mem, path[1..], virt, level - 1)
  {
    hide Index, Followable;
    var rest := path[1..];
    forall i | 0 <= i < |rest| && i < level - 2
      ensures Followable(mem[rest[i]][Index(virt, level - 1 - i)])
    {
      var j := i + 1;
      assert rest[i] == path[j] && Followable(mem[path[j]][Index(virt, level - j)]);
    }
  }

  lemma {:induction false} PathLength(mem: Blocks, table: nat, virt: nat, pool: nat, level: nat)
    requires 1 <= level <= 4 && Walkable(mem, Path(mem, table, virt, pool, level), virt, level)
    ensures |Path(mem, table, virt, pool, level)| == level
    ensures Path(mem, table, virt, pool, level)[0] == table
    decreases level
  {
    hide Index, Followable, UpperEntry, FrameOf;
    var path := Path(mem, table, virt, pool, level);
    assert path[0] == table;
    if level > 1 {
      var w := mem[table][Index(virt, level)];
      var next, left := FrameOf(UpperEntry(w, pool)), if w % 2 == 1 then pool else pool + 1;
      assert path[1..] == Path(mem, next, virt, left, level - 1);
      TailWalkable(mem, path, virt, level);
      PathLength(mem, next, virt, left, level - 1);
    }
  }

  /** Entry `i` of the path leads on to the next table, present, writable and user. */
  ghost predicate OpenAt(mem: Blocks, path: seq<nat>, virt: nat, i: nat)
    requires i < 3 && |path| == 4
  {
    && path[i] in mem && |mem[path[i]]| == 512
    && var w := mem[path[i]][Index(virt, 4 - i)];
       ProcessorFrame(w) == path[i + 1] && !Large(w) && w % 2 == 1 && w / 2 % 2 == 1 && w / 4 % 2 == 1
  }

  /** The first `k` tables have been dealt with; the others are as they were. */
  ghost predicate Progress(old_: Blocks, mem: Blocks, path: seq<nat>, virt: nat, k: nat) {
    && |path| == 4 && k <= 3 && Walkable(old_, path, virt, 4)
    && (forall i | 0 <= i < k :: OpenAt(mem, path, virt, i))
    && (forall i | 0 <= i < 4 :: path[i] in mem && |mem[path[i]]| == 512 && (i >= k ==> mem[path[i]] == old_[path[i]]))
  }

  lemma Start(mem: Blocks, path: seq<nat>, virt: nat)
    requires |path| == 4 && Walkable(mem, path, virt, 4)
    ensures Progress(mem, mem, path, virt, 0)
  {
  }

  lemma UpperFields(w: nat, pool: nat)
    requires Followable(w) && pool < FRAMES
    ensures var e := UpperEntry(w, pool);
            && !Large(e) && e % 2 == 1 && e / 2 % 2 == 1 && e / 4 % 2 == 1 && ProcessorFrame(e) == FrameOf(e)
  {
    var x := if w % 2 == 1 then w else 4096 * pool + 1;
    OpenedFields(x);
    DivIs(4096 * pool + 1, 128, 32 * pool, 1);
    DivIs(4096 * pool + 1, 4096, pool, 1);
    WithinMask(x / 4096);
  }

  /** Below the mask the code and the processor read the same frame. */
  lemma WithinMask(f: nat)
    requires f % 0x100_0000_0000 < FRAMES
    ensures f % FRAMES == f % 0x100_0000_0000
  {
    var q, r := f / 0x100_0000_0000, f % 0x100_0000_0000;
    DivIs(f, FRAMES, 0x1000 * q, r);
  }

  /** One level further: the entry is opened, and the rest of the path is still to be done. */
  lemma Turn(old_: Blocks, mem: Blocks, path: seq<nat>, virt: nat, pool: nat, level: nat)
    requires 2 <= level <= 4 && Progress(old_, mem, path, virt, 4 - level) && pool < FRAMES
    requires path[4 - level..] == Path(old_, path[4 - level], virt, pool, level)
    ensures var t := path[4 - level];
            && t in mem && |mem[t]| == 512
            && var w := mem[t][Index(virt, level)];
               var next := FrameOf(UpperEntry(w, pool));
               && path[5 - level] == next
               && path[5 - level..] == Path(old_, next, virt, if w % 2 == 1 then pool else pool + 1, level - 1)
               && Progress(old_, Put(mem, t, Index(virt, level), UpperEntry(w, pool)), path, virt, 5 - level)
  {
    hide Index, UpperEntry, FrameOf, ProcessorFrame, Large, Followable;
    var k := 4 - level;
    var t := path[k];
    var w := mem[t][Index(virt, level)];
    var rest := Path(old_, FrameOf(UpperEntry(w, pool)), virt, if w % 2 == 1 then pool else pool + 1, level - 1);
    assert path[k..][1..] == path[k + 1..];
    assert path[k..] == [t] + rest;
    assert path[k + 1..] == rest;
    assert path[k + 1] == rest[0];
    UpperFields(w, pool);
    var after := Put(mem, t, Index(virt, level), UpperEntry(w, pool));
    forall i | 0 <= i < k + 1
      ensures OpenAt(after, path, virt, i)
    {
      assert i < k ==> OpenAt(mem, path, virt, i);
    }
  }

  /** Following opened entries from table `i` on leads to the leaf with its rights. */
  lemma {:induction false} DerivedAlong(mem: Blocks, path: seq<nat>, virt: nat, i: nat)
    requires |path| == 4 && i <= 3 && (forall k | 0 <= k < 3 :: OpenAt(mem, path, virt, k))
    requires path[3] in mem && |mem[path[3]]| == 512
    ensures var w := mem[path[3]][Index(virt, 1)];
            Derived(mem, path[i], virt, 4 - i) == Rights(w % 2 == 1, w / 2 % 2 == 1, w / 4 % 2 == 1, w)
    decreases 3 - i
  {
    hide Index, ProcessorFrame, Large;
    if i < 3 {
      assert OpenAt(mem, path, virt, i);
      DerivedAlong(mem, path, virt, i + 1);
    }
  }

  lemma LastTurn(old_: Blocks, mem: Blocks, path: seq<nat>, virt: nat, leaf: nat)
    requires Progress(old_, mem, path, virt, 3)
    ensures path[3] in mem && |mem[path[3]]| == 512
    ensures Derived(Put(mem, path[3], Index(virt, 1), leaf), path[0], virt, 4)
         == Rights(leaf % 2 == 1, leaf / 2 % 2 == 1, leaf / 4 % 2 == 1, leaf)
  {
    hide Index, ProcessorFrame, Large, Derived;
    var after := Put(mem, path[3], Index(virt, 1), leaf);
    forall i | 0 <= i < 3
      ensures OpenAt(after, path, virt, i)
    {
      assert OpenAt(mem, path, virt, i);
      assert path[i] != path[3];
    }
    DerivedAlong(after, path, virt, 0);
  }
}
