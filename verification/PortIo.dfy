/** Port I/O across the user-space boundary: the kext leaves an access in the shared pages
    (`handle_io`), the library serves it, and the next `KVM_RUN` finishes an IN. */
module PortIo {

  import opened Radix

  const IO_INSTRUCTION: nat := 30
  const KVM_EXIT_IO: nat := 2
  const KVM_EXIT_IO_IN: nat := 0
  const KVM_EXIT_IO_OUT: nat := 1
  const MAX_TURNS: nat := 1000

  const EMSGSIZE := 40
  const EPROTO := 100

  function Pow256(n: nat): (p: nat)
    ensures p > 0
  {
    if n == 0 then 1 else 256 * Pow256(n - 1)
  }

  /** The number little-endian bytes stand for. */
  function Value(bytes: seq<nat>): nat {
    if bytes == [] then 0 else bytes[0] + 256 * Value(bytes[1..])
  }

  /** The `n` low bytes of `v`. */
  function Bytes(v: nat, n: nat): (b: seq<nat>)
    ensures |b| == n
  {
    if n == 0 then [] else [v % 256] + Bytes(v / 256, n - 1)
  }

  lemma ModStep(v: nat, m: nat)
    requires m > 0
    ensures v % (256 * m) == v % 256 + 256 * (v / 256 % m)
  {
    var q, r := v / 256 / m, v / 256 % m;
    var low := v % 256 + 256 * r;
    assert v == 256 * (q * m + r) + v % 256 == q * (256 * m) + low;
    assert low < 256 * m;
    DivIs(v, 256 * m, q, low);
  }

  /** Writing the low bytes of a word and reading them back truncates it. */
  lemma {:induction false} ValueOfBytes(v: nat, n: nat)
    ensures Value(Bytes(v, n)) == v % Pow256(n)
  {
    if n > 0 {
      ValueOfBytes(v / 256, n - 1);
      assert Bytes(v, n)[1..] == Bytes(v / 256, n - 1);
      ModStep(v, Pow256(n - 1));
    }
  }

  /** The I/O part of the shared `kvm_run` page. */
  datatype Io = Io(direction: nat, size: nat, port: nat, count: nat, offset: nat)

  /** One way the guest can come back: with these registers, and for exits other than I/O with
      these registers after the handler, which asks for another turn or not. */
  datatype Exit = Exit(reason: nat, qualification: nat, length: nat, rax: nat, rip: nat,
                       raxAfter: nat, ripAfter: nat, again: bool, error: nat)

  predicate IsIn(e: Exit) {
    e.qualification / 8 % 2 == 1
  }

  function SizeOf(e: Exit): nat {
    e.qualification % 8 + 1
  }

  function PortOf(e: Exit): nat {
    e.qualification / 0x1_0000 % 0x1_0000
  }

  /** An IN or OUT as the guest executes it, with whatever the processor puts in the reserved bits. */
  datatype Instruction = Instruction(size: nat, isIn: bool, isString: bool, repeated: bool, immediate: bool,
                                     port: nat, low: nat, high: nat)

  predicate Executable(i: Instruction) {
    i.size in {1, 2, 4} && i.port < 0x1_0000 && i.low < 0x200 && i.high < 0x1_0000_0000
  }

  function Bit(b: bool): nat {
    if b then 1 else 0
  }

  /** The exit qualification for I/O instructions (table 27-5 of the Intel SDM, volume 3C): size
      less one in bits 2:0, direction in bit 3, string in bit 4, REP in bit 5, immediate operand in
      bit 6, the port in bits 31:16. */
  function Qualification(i: Instruction): nat
    requires Executable(i)
  {
    i.size - 1 + 8 * Bit(i.isIn) + 16 * Bit(i.isString) + 32 * Bit(i.repeated) + 64 * Bit(i.immediate)
    + 0x80 * i.low + 0x1_0000 * i.port + 0x1_0000_0000 * i.high
  }

  /** Exit `e` is the one instruction `i` causes. */
  predicate Causes(i: Instruction, e: Exit) {
    Executable(i) && e.reason == IO_INSTRUCTION && e.qualification == Qualification(i)
  }

  /** Size, direction and port are read back from the qualification of every instruction. */
  lemma Recovered(i: Instruction, e: Exit)
    requires Causes(i, e)
    ensures SizeOf(e) == i.size && (IsIn(e) <==> i.isIn) && PortOf(e) == i.port
  {
    assert Bit(i.isIn) <= 1 && (Bit(i.isIn) == 1 <==> i.isIn);
    hide Bit;
    var q := e.qualification;
    var above := Bit(i.isString) + 2 * Bit(i.repeated) + 4 * Bit(i.immediate) + 8 * i.low
                 + 0x1000 * i.port + 0x1000_0000 * i.high;
    DivIs(q, 8, Bit(i.isIn) + 2 * above, i.size - 1);
    DivIs(Bit(i.isIn) + 2 * above, 2, above, Bit(i.isIn));
    PortBits(i, q);
  }

  lemma PortBits(i: Instruction, q: nat)
    requires Executable(i) && q == Qualification(i)
    ensures q / 0x1_0000 % 0x1_0000 == i.port
  {
    var low := i.size - 1 + 8 * Bit(i.isIn) + 16 * Bit(i.isString) + 32 * Bit(i.repeated) + 64 * Bit(i.immediate)
               + 0x80 * i.low;
    DivIs(q, 0x1_0000, i.port + 0x1_0000 * i.high, low);
    DivIs(i.port + 0x1_0000 * i.high, 0x1_0000, i.high, i.port);
  }

  /** The run goes on after exit `e`, turns permitting. */
  predicate GoesOn(e: Exit) {
    e.reason != IO_INSTRUCTION && e.again && e.error == 0
  }

  class Vcpu {
    var rax: nat
    var rip: nat
    var pendingIo: bool
    var io: Io
    var exitReason: nat
    /** `pio_data`, the page after `kvm_run`. */
    const pio: array<nat>

    ghost predicate Valid()
      reads this
    {
      pio.Length == PAGE_SIZE && (pendingIo ==> 1 <= io.size <= 8 && io.count == 1)
    }

    constructor ()
      ensures Valid() && !pendingIo && fresh(pio)
    {
      rax, rip, pendingIo, exitReason := 0, 0, false, 0;
      io := Io(0, 0, 0, 0, 0);
      pio := new nat[PAGE_SIZE];
    }

    /** `memcpy(pio_data + at, &v, n)` */
    method CopyIn(at: nat, v: nat, n: nat)
      requires at + n <= pio.Length
      modifies pio
      ensures pio[at..at + n] == Bytes(v, n)
      ensures forall i | 0 <= i < pio.Length && !(at <= i < at + n) :: pio[i] == old(pio[i])
    {
      var w, k := v, 0;
      while k < n
        invariant 0 <= k <= n
        invariant pio[at..at + k] + Bytes(w, n - k) == Bytes(v, n)
        invariant forall i | 0 <= i < pio.Length && !(at <= i < at + k) :: pio[i] == old(pio[i])
      {
        ghost var before := pio[at..at + k];
        pio[at + k] := w % 256;
        assert pio[at..at + k] == before;
        assert pio[at..at + k + 1] == before + [w % 256];
        w := w / 256;
        k := k + 1;
      }
      assert pio[at..at + n] + Bytes(w, 0) == pio[at..at + n];
    }

    /** `memcpy(&v, pio_data + at, n)` into a zeroed word */
    method CopyOut(at: nat, n: nat) returns (v: nat)
      requires at + n <= pio.Length
      ensures v == Value(pio[at..at + n])
    {
      v := 0;
      var k := n;
      while k > 0
        invariant 0 <= k <= n && v == Value(pio[at + k..at + n])
      {
        k := k - 1;
        assert pio[at + k..at + n][1..] == pio[at + k + 1..at + n];
        v := pio[at + k] + 256 * v;
      }
    }

    /** `handle_io` of the kext; it never asks for another turn. */
    method HandleIo(e: Exit)
      requires Valid()
      modifies this, pio
      ensures Valid() && exitReason == KVM_EXIT_IO && rax == old(rax)
      ensures rip == (old(rip) + e.length) % WORD
      ensures io == Io(if IsIn(e) then KVM_EXIT_IO_IN else KVM_EXIT_IO_OUT, SizeOf(e), PortOf(e), 1, PAGE_SIZE)
      ensures forall i | Causes(i, e) :: io == Io(if i.isIn then 0 else 1, i.size, i.port, 1, 4096)
      ensures IsIn(e) ==> pendingIo && pio[..] == old(pio[..])
      ensures !IsIn(e) ==> pendingIo == old(pendingIo) && pio[0..SizeOf(e)] == Bytes(rax, SizeOf(e))
    {
      var isIn := e.qualification / 8 % 2 == 1;
      io := Io(if isIn then KVM_EXIT_IO_IN else KVM_EXIT_IO_OUT, e.qualification % 8 + 1,
               e.qualification / 0x1_0000 % 0x1_0000, 1, PAGE_SIZE);
      if !isIn {
        var size := io.size * io.count;
        CopyIn(0, rax, if size < 8 then size else 8);
      } else {
        pendingIo := true;
      }
      exitReason := KVM_EXIT_IO;
      rip := (rip + e.length) % WORD;
      forall i | Causes(i, e)
        ensures io == Io(if i.isIn then 0 else 1, i.size, i.port, 1, 4096)
      {
        hide Causes;
        Recovered(i, e);
      }
    }

    /** The start of `kvm_run_wrapper`: an IN left pending is finished first. */
    method FinishIn()
      requires Valid()
      modifies this`rax, this`pendingIo
      ensures Valid() && !pendingIo
      ensures rax == if old(pendingIo) then Value(pio[0..io.size]) else old(rax)
    {
      if pendingIo {
        var size := io.size * io.count;
        var val := CopyOut(0, if size < 8 then size else 8);
        rax := val;
        pendingIo := false;
      }
    }

    /** `kvm_run_wrapper` as far as registers and I/O go: `exits` is what the guest will do.
        `n` turns are made; `first` are RAX and RIP at the first entry. */
    method KvmRun(exits: seq<Exit>) returns (n: nat, first: (nat, nat))
      requires Valid() && |exits| >= MAX_TURNS
      modifies this, pio
      ensures Valid() && 1 <= n <= MAX_TURNS
      ensures first == (if old(pendingIo) then Value(old(pio[0..io.size])) else old(rax), old(rip))
      // no exit but the last is an I/O exit, an error or the end of the run
      ensures forall k | 0 <= k < n - 1 :: GoesOn(exits[k])
      ensures n == 1000 || !GoesOn(exits[n - 1])
      ensures var last := exits[n - 1];
              if last.reason == IO_INSTRUCTION then
                && Reported(last) && rax == last.rax && rip == (last.rip + last.length) % WORD
              else
                !pendingIo && exitReason == 0 && rax == last.raxAfter && rip == last.ripAfter
    {
      FinishIn();
      first := (rax, rip);
      exitReason := 0;
      var cont, turns := true, 0;
      n := 0;
      while cont && turns < MAX_TURNS
        invariant Valid() && turns == n <= MAX_TURNS && (n == 0 ==> cont)
        invariant forall k | 0 <= k < n - 1 :: GoesOn(exits[k])
        invariant n > 0 ==> (cont <==> GoesOn(exits[n - 1]))
        invariant n > 0 && exits[n - 1].reason != IO_INSTRUCTION ==>
                    rax == exits[n - 1].raxAfter && rip == exits[n - 1].ripAfter
        invariant n > 0 && exits[n - 1].reason == IO_INSTRUCTION ==>
                    && !cont && Reported(exits[n - 1])
                    && rax == exits[n - 1].rax && rip == (exits[n - 1].rip + exits[n - 1].length) % WORD
        invariant n == 0 || exits[n - 1].reason != IO_INSTRUCTION ==> !pendingIo && exitReason == 0
        invariant n == 0 ==> rip == old(rip)
      {
        turns := turns + 1;
        var e := exits[n];
        n := n + 1;
        rax, rip := e.rax, e.rip;
        if e.reason == IO_INSTRUCTION {
          HandleIo(e);
          cont := false;
        } else {
          rax, rip, cont := e.raxAfter, e.ripAfter, e.again;
        }
        if e.error != 0 {
          break;
        }
      }
    }

    /** The access of exit `e` is laid out for user space, with its data if it is an OUT. */
    ghost predicate Reported(e: Exit)
      reads this, pio
    {
      && pio.Length == PAGE_SIZE && exitReason == KVM_EXIT_IO && (pendingIo <==> IsIn(e))
      && io == Io(if IsIn(e) then KVM_EXIT_IO_IN else KVM_EXIT_IO_OUT, SizeOf(e), PortOf(e), 1, PAGE_SIZE)
      && (!IsIn(e) ==> pio[0..SizeOf(e)] == Bytes(e.rax, SizeOf(e)))
    }
  }

  /** A callback made by the library. */
  datatype Access = Access(size: nat, port: nat, value: nat)

  /** The callbacks: `outs` records the writes, `answer(port, size)` is what a read returns. */
  class Devices {
    var outs: seq<Access>
    const answer: (nat, nat) -> nat

    constructor (answer: (nat, nat) -> nat)
      ensures outs == [] && this.answer == answer
    {
      this.answer := answer;
      outs := [];
    }
  }

  /** What the library can serve. */
  predicate Served(io: Io) {
    io.size in {1, 2, 4} && io.direction in {KVM_EXIT_IO_IN, KVM_EXIT_IO_OUT}
  }

  /** The body of the loop of `handle_io` of the library. */
  method ServeOne(v: Vcpu, d: Devices, p: nat) returns (r: int)
    requires p + v.io.size <= v.pio.Length
    modifies v.pio, d
    ensures r == if Served(v.io) then 0
                 else if v.io.direction in {KVM_EXIT_IO_IN, KVM_EXIT_IO_OUT} then -EMSGSIZE else -EPROTO
    ensures r != 0 || v.io.direction == KVM_EXIT_IO_OUT ==> v.pio[..] == old(v.pio[..])
    ensures r != 0 || v.io.direction == KVM_EXIT_IO_IN ==> d.outs == old(d.outs)
    ensures r == 0 && v.io.direction == KVM_EXIT_IO_IN ==>
              && v.pio[p..p + v.io.size] == Bytes(d.answer(v.io.port, v.io.size), v.io.size)
              && v.pio[..p] == old(v.pio[..p])
    ensures r == 0 && v.io.direction == KVM_EXIT_IO_OUT ==>
              d.outs == old(d.outs) + [Access(v.io.size, v.io.port, Value(v.pio[p..p + v.io.size]))]
  {
    if v.io.direction == KVM_EXIT_IO_IN {
      if v.io.size !in {1, 2, 4} {
        return -EMSGSIZE;
      }
      v.CopyIn(p, d.answer(v.io.port, v.io.size), v.io.size);
    } else if v.io.direction == KVM_EXIT_IO_OUT {
      if v.io.size !in {1, 2, 4} {
        return -EMSGSIZE;
      }
      var value := v.CopyOut(p, v.io.size);
      d.outs := d.outs + [Access(v.io.size, v.io.port, value)];
    } else {
      return -EPROTO;
    }
    return 0;
  }

  /** The writes of an OUT of `count` items. */
  function Sent(data: seq<nat>, size: nat, port: nat, count: nat): seq<Access>
    requires count * size <= |data|
  {
    if count == 0 then []
    else
      InBuffer(count - 1, count, size);
      var at := (count - 1) * size;
      Sent(data, size, port, count - 1) + [Access(size, port, Value(data[at..at + size]))]
  }

  /** The data of an IN of `count` items. */
  function Received(value: nat, size: nat, count: nat): seq<nat> {
    if count == 0 then [] else Received(value, size, count - 1) + Bytes(value, size)
  }

  lemma SentStep(data: seq<nat>, size: nat, port: nat, i: nat)
    requires i * size + size == (i + 1) * size <= |data|
    ensures Sent(data, size, port, i + 1)
         == Sent(data, size, port, i) + [Access(size, port, Value(data[i * size..i * size + size]))]
  {
    hide Value;
  }

  lemma ReceivedStep(value: nat, size: nat, i: nat)
    ensures Received(value, size, i + 1) == Received(value, size, i) + Bytes(value, size)
  {
    hide Bytes;
  }

  /** What has happened after `i` items: the buffer was `before` and is `now`, the log `sent` and `outs`. */
  ghost predicate ServedItems(io: Io, value: nat, before: seq<nat>, now: seq<nat>,
                              sent: seq<Access>, outs: seq<Access>, i: nat)
  {
    && i * io.size <= |before| == |now| && (i > 0 ==> Served(io))
    && (!Served(io) || io.direction == KVM_EXIT_IO_OUT ==> now == before)
    && (!Served(io) || io.direction == KVM_EXIT_IO_IN ==> outs == sent)
    && (io.direction == KVM_EXIT_IO_IN ==> now[..i * io.size] == Received(value, io.size, i))
    && (io.direction == KVM_EXIT_IO_OUT ==> outs == sent + Sent(before, io.size, io.port, i))
  }

  lemma OneMoreIn(io: Io, value: nat, before: seq<nat>, now: seq<nat>, now': seq<nat>, sent: seq<Access>, i: nat)
    requires ServedItems(io, value, before, now, sent, sent, i) && Served(io) && io.direction == KVM_EXIT_IO_IN
    requires i * io.size + io.size == (i + 1) * io.size <= |now| == |now'|
    requires now'[..i * io.size] == now[..i * io.size]
    requires now'[i * io.size..i * io.size + io.size] == Bytes(value, io.size)
    ensures ServedItems(io, value, before, now', sent, sent, i + 1)
  {
    hide Bytes, Received, Sent;
    var p := i * io.size;
    ReceivedStep(value, io.size, i);
    assert now'[..p + io.size] == now'[..p] + now'[p..p + io.size];
  }

  lemma OneMoreOut(io: Io, value: nat, before: seq<nat>, sent: seq<Access>, outs: seq<Access>, i: nat)
    requires ServedItems(io, value, before, before, sent, outs, i) && Served(io) && io.direction == KVM_EXIT_IO_OUT
    requires i * io.size + io.size == (i + 1) * io.size <= |before|
    ensures ServedItems(io, value, before, before, sent,
                        outs + [Access(io.size, io.port, Value(before[i * io.size..i * io.size + io.size]))], i + 1)
  {
    hide Value, Received, Sent;
    SentStep(before, io.size, io.port, i);
  }

  /** One turn of the loop: the item at `p` is served, or refused without effect. */
  method ServeItem(v: Vcpu, d: Devices, p: nat, ghost i: nat, ghost before: seq<nat>, ghost sent: seq<Access>)
    returns (r: int)
    requires p == i * v.io.size && p + v.io.size == (i + 1) * v.io.size <= v.pio.Length
    requires ServedItems(v.io, d.answer(v.io.port, v.io.size), before, v.pio[..], sent, d.outs, i)
    modifies v.pio, d
    ensures r == 0 <==> Served(v.io)
    ensures r != 0 ==> v.pio[..] == old(v.pio[..]) && d.outs == old(d.outs)
    ensures r == 0 ==> ServedItems(v.io, d.answer(v.io.port, v.io.size), before, v.pio[..], sent, d.outs, i + 1)
  {
    hide Bytes, Value, ServedItems;
    ghost var value := d.answer(v.io.port, v.io.size);
    ServedSame(v.io, value, before, v.pio[..], sent, d.outs, i);
    r := ServeOne(v, d, p);
    if r == 0 && v.io.direction == KVM_EXIT_IO_IN {
      ghost var was, now := old(v.pio[..]), v.pio[..];
      assert now[..p] == v.pio[..p] && was[..p] == old(v.pio[..p]) && now[p..p + v.io.size] == v.pio[p..p + v.io.size];
      OneMoreIn(v.io, value, before, was, now, sent, i);
    } else if r == 0 {
      assert v.pio[..][p..p + v.io.size] == v.pio[p..p + v.io.size];
      OneMoreOut(v.io, value, before, sent, old(d.outs), i);
    }
  }

  lemma ServedSame(io: Io, value: nat, before: seq<nat>, now: seq<nat>, sent: seq<Access>, outs: seq<Access>, i: nat)
    requires ServedItems(io, value, before, now, sent, outs, i)
    ensures io.direction == KVM_EXIT_IO_OUT ==> now == before
    ensures io.direction == KVM_EXIT_IO_IN ==> outs == sent
  {
  }

  /** `handle_io` of the library: every item of the access is served in order, or none is. */
  method ServeIo(v: Vcpu, d: Devices) returns (r: int)
    requires v.Valid() && v.io.offset == PAGE_SIZE && v.io.count * v.io.size <= PAGE_SIZE
    modifies v.pio, d
    ensures r == 0 <==> v.io.count == 0 || Served(v.io)
    ensures r != 0 ==> d.outs == old(d.outs) && v.pio[..] == old(v.pio[..])
    ensures r == 0 && v.io.direction == KVM_EXIT_IO_IN ==>
              && d.outs == old(d.outs)
              && v.pio[..v.io.count * v.io.size] == Received(d.answer(v.io.port, v.io.size), v.io.size, v.io.count)
    ensures r == 0 && v.io.direction == KVM_EXIT_IO_OUT ==>
              && v.pio[..] == old(v.pio[..])
              && d.outs == old(d.outs) + Sent(old(v.pio[..]), v.io.size, v.io.port, v.io.count)
  {
    hide Bytes, Value;
    var size, count := v.io.size, v.io.count;
    var p := v.io.offset - PAGE_SIZE;
    var i := 0;
    while i < count
      invariant 0 <= i <= count && p == i * size
      invariant ServedItems(v.io, d.answer(v.io.port, size), old(v.pio[..]), v.pio[..], old(d.outs), d.outs, i)
    {
      hide ServedItems;
      NothingYet(v.io, d.answer(v.io.port, size), old(v.pio[..]), v.pio[..], old(d.outs), d.outs, i);
      InBuffer(i, count, size);
      r := ServeItem(v, d, p, i, old(v.pio[..]), old(d.outs));
      if r != 0 {
        return r;
      }
      p := p + size;
      i := i + 1;
    }
    assert v.pio[..][..p] == v.pio[..p];
    return 0;
  }

  lemma NothingYet(io: Io, value: nat, before: seq<nat>, now: seq<nat>, sent: seq<Access>, outs: seq<Access>, i: nat)
    requires ServedItems(io, value, before, now, sent, outs, i)
    ensures !Served(io) ==> now == before && outs == sent
  {
  }

  lemma InBuffer(i: nat, count: nat, size: nat)
    requires i < count
    ensures i * size + size == (i + 1) * size <= count * size
  {
    MulBound(count - i - 1, size);
    assert (count - i - 1) * size == count * size - (i + 1) * size;
  }

  /** What the processor's own IN leaves in RAX (section 3.4.1.1 of the Intel SDM, volume 1):
      32-bit results are zero-extended, shorter ones leave the other bits alone. */
  function ProcessorIn(rax: nat, value: nat, size: nat): int {
    if size == 4 then value % Pow256(4) else rax / Pow256(size) * Pow256(size) + value % Pow256(size)
  }

  /** Replacing all of RAX is what the processor does exactly for 32-bit accesses, and where
      there was nothing above the access size. */
  lemma ReplacesRax(rax: nat, value: nat, size: nat)
    requires size in {1, 2, 4}
    ensures value % Pow256(size) == ProcessorIn(rax, value, size) <==> size == 4 || rax < Pow256(size)
    ensures 7 % Pow256(1) != ProcessorIn(0x100, 7, 1)
  {
    assert Pow256(1) == 256;
    AboveSize(rax, Pow256(size));
  }

  lemma AboveSize(rax: nat, p: nat)
    requires p > 0
    ensures rax / p * p == 0 <==> rax < p
  {
    if rax < p {
      DivIs(rax, p, 0, rax);
    } else {
      MulBound(rax / p, p);
      assert rax / p * p > rax - p;
    }
  }

  /** One access from the guest's instruction to its next entry: an OUT reaches the device with
      RAX truncated to the access size, an IN leaves the device's answer, truncated and
      zero-extended, in RAX; RIP moves past the instruction once. */
  method PortAccess(v: Vcpu, d: Devices, exits: seq<Exit>, later: seq<Exit>, ghost i: Instruction)
    returns (n: nat, r: int, m: nat, first: (nat, nat))
    requires v.Valid() && |exits| >= MAX_TURNS && |later| >= MAX_TURNS
    modifies v, v.pio, d
    ensures v.Valid() && 1 <= n <= MAX_TURNS
    ensures var e := exits[n - 1];
            Causes(i, e) ==>
              var answer := d.answer(i.port, i.size);
              && r == 0 && first.1 == (e.rip + e.length) % WORD
              && (i.isIn ==>
                    && first.0 == answer % Pow256(i.size) && d.outs == old(d.outs)
                    && (first.0 == ProcessorIn(e.rax, answer, i.size) <==> i.size == 4 || e.rax < Pow256(i.size)))
              && (!i.isIn ==>
                    && first.0 == e.rax
                    && d.outs == old(d.outs) + [Access(i.size, i.port, e.rax % Pow256(i.size))])
  {
    var start: (nat, nat);
    n, start := v.KvmRun(exits);
    r, m, first := 0, 0, start;
    ghost var e := exits[n - 1];
    if v.exitReason == KVM_EXIT_IO {
      ghost var size, port := SizeOf(e), PortOf(e);
      assert Sent(v.pio[..], size, port, 1) == [Access(size, port, Value(v.pio[..][0..size]))];
      assert v.pio[..][0..size] == v.pio[0..size];
      assert Received(d.answer(port, size), size, 1) == Bytes(d.answer(port, size), size);
      if Causes(i, e) {
        Recovered(i, e);
        ReplacesRax(e.rax, d.answer(port, size), size);
      }
      hide Causes, IsIn, SizeOf, PortOf;
      ValueOfBytes(e.rax, size);
      ValueOfBytes(d.answer(port, size), size);
      r := ServeIo(v, d);
      m, first := v.KvmRun(later);
    }
  }
}
