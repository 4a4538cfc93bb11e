/** Special registers in the VMCS: `kvm_set_sregs`, `kvm_get_sregs` and the segment fields with
    their access rights (section 24.4.1 of the Intel SDM, volume 3C). */
module Sregs {
  import opened Radix

  // VMCS field encodings
  const GUEST_IA32_EFER: nat := 0x2806
  const GUEST_GDTR_LIMIT: nat := 0x4810
  const GUEST_IDTR_LIMIT: nat := 0x4812
  const GUEST_CR0: nat := 0x6800
  const GUEST_CR3: nat := 0x6802
  const GUEST_CR4: nat := 0x6804
  const GUEST_GDTR_BASE: nat := 0x6816
  const GUEST_IDTR_BASE: nat := 0x6818

  // Segment registers
  const ES: nat := 0
  const CS: nat := 1
  const SS: nat := 2
  const DS: nat := 3
  const FS: nat := 4
  const GS: nat := 5
  const TR: nat := 6
  const LDTR: nat := 7

  datatype Segment = Segment(base: nat, limit: nat, selector: nat, kind: nat, present: nat, dpl: nat,
                             db: nat, s: nat, l: nat, g: nat, avl: nat, unusable: nat)

  datatype Table = Table(base: nat, limit: nat)

  datatype Registers = Registers(segments: seq<Segment>, gdt: Table, idt: Table,
                                 cr0: nat, cr2: nat, cr3: nat, cr4: nat, efer: nat)

  /** The widths of `struct kvm_sregs`. */
  predicate Sized(r: Registers) {
    && |r.segments| == 8 && (forall i | 0 <= i < 8 :: SizedSegment(r.segments[i]))
    && r.gdt.base < WORD && r.gdt.limit < 0x1_0000 && r.idt.base < WORD && r.idt.limit < 0x1_0000
    && r.cr0 < WORD && r.cr2 < WORD && r.cr3 < WORD && r.cr4 < WORD && r.efer < WORD
  }

  predicate SizedSegment(g: Segment) {
    && g.base < WORD && g.limit < 0x1_0000_0000 && g.selector < 0x1_0000
    && g.kind < 256 && g.present < 256 && g.dpl < 256 && g.db < 256 && g.s < 256 && g.l < 256 && g.g < 256
    && g.avl < 256 && g.unusable < 256
  }

  // ---------- Access rights ----------

  const UNUSABLE: nat := 0x1_0000

  /** `vmx_segment_access_rights`; each part is masked to its width and shifted to its place. */
  function AccessRights(g: Segment): nat {
    if g.unusable != 0 || g.present == 0 then UNUSABLE
    else
      g.kind % 16 + 0x10 * (g.s % 2) + 0x20 * (g.dpl % 4) + 0x80 * (g.present % 2)
      + 0x1000 * (g.avl % 2) + 0x2000 * (g.l % 2) + 0x4000 * (g.db % 2) + 0x8000 * (g.g % 2)
  }

  /** The parts as the processor reads them. */
  datatype Rights = Rights(kind: nat, s: nat, dpl: nat, present: nat, reserved: nat,
                           avl: nat, l: nat, db: nat, g: nat, unusable: nat)

  function Decoded(ar: nat): Rights {
    Rights(ar % 16, ar / 0x10 % 2, ar / 0x20 % 4, ar / 0x80 % 2, ar / 0x100 % 16,
           ar / 0x1000 % 2, ar / 0x2000 % 2, ar / 0x4000 % 2, ar / 0x8000 % 2, ar / 0x1_0000)
  }

  /** The parts a usable segment asks for. */
  function Asked(g: Segment): Rights {
    Rights(g.kind, g.s, g.dpl, g.present, 0, g.avl, g.l, g.db, g.g, 0)
  }

  lemma LowParts(k: nat, s: nat, d: nat, p: nat, high: nat)
    requires k < 16 && s < 2 && d < 4 && p < 2
    ensures var ar := k + 0x10 * s + 0x20 * d + 0x80 * p + 0x100 * high;
            ar % 16 == k && ar / 0x10 % 2 == s && ar / 0x20 % 4 == d && ar / 0x80 % 2 == p && ar / 0x100 == high
  {
    var ar := k + 0x10 * s + 0x20 * d + 0x80 * p + 0x100 * high;
    DivIs(ar, 0x10, s + 2 * d + 8 * p + 16 * high, k);
    DivIs(s + 2 * d + 8 * p + 16 * high, 2, d + 4 * p + 8 * high, s);
    DivIs(ar, 0x20, d + 4 * p + 8 * high, k + 0x10 * s);
    DivIs(d + 4 * p + 8 * high, 4, p + 2 * high, d);
    DivIs(ar, 0x80, p + 2 * high, k + 0x10 * s + 0x20 * d);
    DivIs(p + 2 * high, 2, high, p);
    DivIs(ar, 0x100, high, k + 0x10 * s + 0x20 * d + 0x80 * p);
  }

  lemma HighParts(a: nat, l: nat, b: nat, g: nat)
    requires a < 2 && l < 2 && b < 2 && g < 2
    ensures var h := 16 * (a + 2 * l + 4 * b + 8 * g);
            h % 16 == 0 && h / 16 % 2 == a && h / 32 % 2 == l && h / 64 % 2 == b && h / 128 % 2 == g && h / 256 == 0
  {
    var q := a + 2 * l + 4 * b + 8 * g;
    var h := 16 * q;
    DivIs(h, 16, q, 0);
    DivIs(q, 2, l + 2 * b + 4 * g, a);
    DivIs(h, 32, l + 2 * b + 4 * g, 16 * a);
    DivIs(l + 2 * b + 4 * g, 2, b + 2 * g, l);
    DivIs(h, 64, b + 2 * g, 16 * (a + 2 * l));
    DivIs(b + 2 * g, 2, g, b);
    DivIs(h, 128, g, 16 * (a + 2 * l + 4 * b));
    DivIs(h, 256, 0, h);
  }

  /** Dividing on: the high part sits 8 bits up. */
  lemma DivOn(ar: nat, high: nat, d: nat)
    requires ar / 0x100 == high && d > 0
    ensures ar / (0x100 * d) == high / d
  {
    var q, r := high / d, high % d;
    assert high == q * d + r;
    assert ar == 0x100 * high + ar % 0x100;
    DivIs(ar, 0x100 * d, q, 0x100 * r + ar % 0x100);
  }

  /** The parts above bit 8 are read from the high part. */
  lemma DecodedHigh(ar: nat, high: nat)
    requires ar / 0x100 == high
    ensures Decoded(ar) == Rights(ar % 16, ar / 0x10 % 2, ar / 0x20 % 4, ar / 0x80 % 2, high % 16,
                                  high / 16 % 2, high / 32 % 2, high / 64 % 2, high / 128 % 2, high / 256)
  {
    DivOn(ar, high, 16);
    DivOn(ar, high, 32);
    DivOn(ar, high, 64);
    DivOn(ar, high, 128);
    DivOn(ar, high, 256);
  }

  /** The processor reads every part of a usable segment, cut to its width, and clear reserved bits. */
  lemma RightsRead(g: Segment)
    requires g.unusable == 0 && g.present != 0
    ensures Decoded(AccessRights(g))
         == Rights(g.kind % 16, g.s % 2, g.dpl % 4, g.present % 2, 0, g.avl % 2, g.l % 2, g.db % 2, g.g % 2, 0)
  {
    hide Decoded;
    var high := 16 * (g.avl % 2 + 2 * (g.l % 2) + 4 * (g.db % 2) + 8 * (g.g % 2));
    var ar := AccessRights(g);
    assert ar == g.kind % 16 + 0x10 * (g.s % 2) + 0x20 * (g.dpl % 4) + 0x80 * (g.present % 2) + 0x100 * high;
    LowParts(g.kind % 16, g.s % 2, g.dpl % 4, g.present % 2, high);
    HighParts(g.avl % 2, g.l % 2, g.db % 2, g.g % 2);
    DecodedHigh(ar, high);
  }

  /** The parts come through unchanged exactly if each fits its width. */
  lemma RightsFaithful(g: Segment)
    requires g.unusable == 0 && g.present != 0
    ensures Decoded(AccessRights(g)) == Asked(g)
       <==> g.kind < 16 && g.s < 2 && g.dpl < 4 && g.present < 2 && g.avl < 2 && g.l < 2 && g.db < 2 && g.g < 2
  {
    hide AccessRights, Decoded;
    RightsRead(g);
  }

  /** Two usable segments whose parts fit have the same access rights only if the parts are the same. */
  lemma RightsInjective(g: Segment, h: Segment)
    requires g.unusable == 0 && g.present == 1 && h.unusable == 0 && h.present == 1
    requires g.kind < 16 && g.s < 2 && g.dpl < 4 && g.avl < 2 && g.l < 2 && g.db < 2 && g.g < 2
    requires h.kind < 16 && h.s < 2 && h.dpl < 4 && h.avl < 2 && h.l < 2 && h.db < 2 && h.g < 2
    requires AccessRights(g) == AccessRights(h)
    ensures Asked(g) == Asked(h)
  {
    hide AccessRights, Decoded;
    RightsFaithful(g);
    RightsFaithful(h);
  }

  /** Only an unusable segment is read as one. */
  lemma RightsUnusable(g: Segment)
    ensures Decoded(AccessRights(g)).unusable != 0 <==> g.unusable != 0 || g.present == 0
  {
    if g.unusable == 0 && g.present != 0 {
      hide AccessRights, Decoded;
      RightsRead(g);
    }
  }

  // ---------- Segment fields ----------

  /** Place of a segment register in the order of the field encodings. */
  function Place(i: nat): (p: nat)
    requires i < 8
    ensures p < 8
  {
    if i == TR then 7 else if i == LDTR then 6 else i
  }

  function SelectorField(i: nat): nat
    requires i < 8
  {
    0x800 + 2 * Place(i)
  }

  function LimitField(i: nat): nat
    requires i < 8
  {
    0x4800 + 2 * Place(i)
  }

  function RightsField(i: nat): nat
    requires i < 8
  {
    0x4814 + 2 * Place(i)
  }

  function BaseField(i: nat): nat
    requires i < 8
  {
    0x6806 + 2 * Place(i)
  }

  predicate IsFieldOf(f: nat, i: nat)
    requires i < 8
  {
    f == BaseField(i) || f == LimitField(i) || f == SelectorField(i) || f == RightsField(i)
  }

  /** The guest-state fields of appendix B of the Intel SDM, volume 3D: selector, limit, access
      rights and base of each segment register, and the control and table registers. */
  lemma FieldTable(i: nat)
    requires i < 8
    ensures var place := if i == ES then 0 else if i == CS then 1 else if i == SS then 2 else if i == DS then 3
                         else if i == FS then 4 else if i == GS then 5 else if i == LDTR then 6 else 7;
            && [0x800, 0x802, 0x804, 0x806, 0x808, 0x80a, 0x80c, 0x80e][place] == SelectorField(i)
            && [0x4800, 0x4802, 0x4804, 0x4806, 0x4808, 0x480a, 0x480c, 0x480e][place] == LimitField(i)
            && [0x4814, 0x4816, 0x4818, 0x481a, 0x481c, 0x481e, 0x4820, 0x4822][place] == RightsField(i)
            && [0x6806, 0x6808, 0x680a, 0x680c, 0x680e, 0x6810, 0x6812, 0x6814][place] == BaseField(i)
    ensures GUEST_CR0 == 0x6800 && GUEST_CR3 == 0x6802 && GUEST_CR4 == 0x6804 && GUEST_IA32_EFER == 0x2806
    ensures GUEST_GDTR_BASE == 0x6816 && GUEST_GDTR_LIMIT == 0x4810
    ensures GUEST_IDTR_BASE == 0x6818 && GUEST_IDTR_LIMIT == 0x4812
  {
  }

  /** Fields of control and table registers. */
  predicate IsControl(f: nat) {
    || f == GUEST_CR0 || f == GUEST_CR3 || f == GUEST_CR4 || f == GUEST_IA32_EFER
    || f == GUEST_GDTR_BASE || f == GUEST_GDTR_LIMIT || f == GUEST_IDTR_BASE || f == GUEST_IDTR_LIMIT
  }

  /** No two segments share a field, and none is a control or table register. */
  lemma FieldsApart(f: nat, i: nat, j: nat)
    requires i < 8 && j < 8 && IsFieldOf(f, i)
    ensures (i != j ==> !IsFieldOf(f, j)) && !IsControl(f)
  {
  }

  /** The segment is in its four fields. */
  ghost predicate Holds(fields: map<nat, nat>, i: nat, g: Segment)
    requires i < 8
  {
    && BaseField(i) in fields && fields[BaseField(i)] == g.base
    && LimitField(i) in fields && fields[LimitField(i)] == g.limit
    && SelectorField(i) in fields && fields[SelectorField(i)] == g.selector
    && RightsField(i) in fields && fields[RightsField(i)] == AccessRights(g)
  }

  ghost predicate AllHold(fields: map<nat, nat>, segments: seq<Segment>, done: set<nat>) {
    |segments| == 8 && forall i | i in done :: i < 8 && Holds(fields, i, segments[i])
  }

  /** Writing the fields of `i` leaves those of the others. */
  lemma HoldsKept(before: map<nat, nat>, after: map<nat, nat>, i: nat, j: nat, g: Segment)
    requires i < 8 && j < 8 && i != j && Holds(before, j, g)
    requires forall f | f in before && !IsFieldOf(f, i) :: f in after && after[f] == before[f]
    ensures Holds(after, j, g)
  {
    hide AccessRights;
    FieldsApart(BaseField(j), j, i);
    FieldsApart(LimitField(j), j, i);
    FieldsApart(SelectorField(j), j, i);
    FieldsApart(RightsField(j), j, i);
  }

  class Vcpu {
    /** The guest fields of the VMCS that have been written. */
    var fields: map<nat, nat>
    var cr2: nat

    constructor ()
    {
      fields, cr2 := map[], 0;
    }

    /** `vmcs_readl`; a field that was never written holds 0. */
    method Read(f: nat) returns (w: nat)
      ensures w == if f in fields then fields[f] else 0
    {
      w := if f in fields then fields[f] else 0;
    }

    /** `kvm_set_segment` */
    method SetSegment(g: Segment, i: nat, ghost segments: seq<Segment>, ghost done: set<nat>)
      requires i < 8 && AllHold(fields, segments, done) && segments[i] == g
      modifies this`fields
      ensures AllHold(fields, segments, done + {i})
      ensures forall f | f in old(fields) && !IsFieldOf(f, i) :: f in fields && fields[f] == old(fields)[f]
    {
      hide AccessRights;
      fields := fields[BaseField(i) := g.base];
      fields := fields[LimitField(i) := g.limit];
      fields := fields[SelectorField(i) := g.selector];
      fields := fields[RightsField(i) := AccessRights(g)];
      assert Holds(fields, i, g);
      forall j | j in done && j != i
        ensures Holds(fields, j, segments[j])
      {
        HoldsKept(old(fields), fields, i, j, segments[j]);
      }
    }

    /** `kvm_get_segment`: base, limit and selector; the other parts keep what the caller had there. */
    method GetSegment(was: Segment, i: nat, ghost g: Segment) returns (r: Segment)
      requires i < 8
      ensures Holds(fields, i, g) && SizedSegment(g) ==> r == ReadBack(was, g)
      ensures r == was.(base := r.base, limit := r.limit, selector := r.selector)
    {
      hide AccessRights;
      var base := Read(BaseField(i));
      var limit := Read(LimitField(i));
      var selector := Read(SelectorField(i));
      r := was.(base := base, limit := limit % 0x1_0000_0000, selector := selector % 0x1_0000);
    }

    /** What `kvm_set_sregs` leaves behind: bits 5 of CR0 and 13 of CR4 are always set. */
    ghost predicate Holding(x: Registers)
      reads this
    {
      && AllHold(fields, x.segments, ALL) && cr2 == x.cr2
      && Is(fields, GUEST_CR0, SetBit(x.cr0, 0x20)) && Is(fields, GUEST_CR3, x.cr3)
      && Is(fields, GUEST_CR4, SetBit(x.cr4, 0x2000))
      && Is(fields, GUEST_GDTR_BASE, x.gdt.base) && Is(fields, GUEST_GDTR_LIMIT, x.gdt.limit)
      && Is(fields, GUEST_IDTR_BASE, x.idt.base) && Is(fields, GUEST_IDTR_LIMIT, x.idt.limit)
      && Is(fields, GUEST_IA32_EFER, x.efer)
    }

    method SetSegments(x: Registers)
      requires |x.segments| == 8
      modifies this`fields
      ensures AllHold(fields, x.segments, ALL)
      ensures forall f | f in old(fields) && IsControl(f) :: f in fields && fields[f] == old(fields)[f]
    {
      hide AllHold, IsFieldOf, IsControl;
      ControlsApart();
      NoneHold(fields, x.segments);
      ghost var done := {};
      SetSegment(x.segments[CS], CS, x.segments, done);
      done := done + {CS};
      SetSegment(x.segments[SS], SS, x.segments, done);
      done := done + {SS};
      SetSegment(x.segments[DS], DS, x.segments, done);
      done := done + {DS};
      SetSegment(x.segments[ES], ES, x.segments, done);
      done := done + {ES};
      SetSegment(x.segments[FS], FS, x.segments, done);
      done := done + {FS};
      SetSegment(x.segments[GS], GS, x.segments, done);
      done := done + {GS};
      SetSegment(x.segments[TR], TR, x.segments, done);
      done := done + {TR};
      SetSegment(x.segments[LDTR], LDTR, x.segments, done);
      assert done + {LDTR} == ALL;
    }

    /** `vmcs_writel` on a control or table register. */
    method Write(f: nat, w: nat, ghost segments: seq<Segment>)
      requires IsControl(f)
      modifies this`fields
      ensures fields == old(fields)[f := w]
      ensures AllHold(old(fields), segments, ALL) ==> AllHold(fields, segments, ALL)
    {
      hide AllHold, IsControl;
      AllHoldKept(fields, f, w, segments);
      fields := fields[f := w];
    }

    /** The registers of the descriptor tables, and EFER. */
    method SetTables(x: Registers)
      requires AllHold(fields, x.segments, ALL)
      modifies this`fields
      ensures AllHold(fields, x.segments, ALL)
      ensures Is(fields, GUEST_GDTR_BASE, x.gdt.base) && Is(fields, GUEST_GDTR_LIMIT, x.gdt.limit)
      ensures Is(fields, GUEST_IDTR_BASE, x.idt.base) && Is(fields, GUEST_IDTR_LIMIT, x.idt.limit)
      ensures Is(fields, GUEST_IA32_EFER, x.efer)
      ensures forall f | f in old(fields) && f in {GUEST_CR0, GUEST_CR3, GUEST_CR4} ::
                f in fields && fields[f] == old(fields)[f]
    {
      hide AllHold;
      Write(GUEST_IDTR_LIMIT, x.idt.limit, x.segments);
      Write(GUEST_IDTR_BASE, x.idt.base, x.segments);
      Write(GUEST_GDTR_LIMIT, x.gdt.limit, x.segments);
      Write(GUEST_GDTR_BASE, x.gdt.base, x.segments);
      Write(GUEST_IA32_EFER, x.efer, x.segments);
    }

    /** `kvm_set_sregs` */
    method SetSregs(x: Registers)
      requires Sized(x)
      modifies this
      ensures Holding(x)
      ensures Gained(x.cr0, fields[GUEST_CR0], 0x20) && Gained(x.cr4, fields[GUEST_CR4], 0x2000)
    {
      hide AllHold, SetBit;
      SetBitIs(x.cr0, 0x20);
      SetBitIs(x.cr4, 0x2000);
      Write(GUEST_CR0, SetBit(x.cr0, 0x20), x.segments);
      cr2 := x.cr2;
      Write(GUEST_CR3, x.cr3, x.segments);
      Write(GUEST_CR4, SetBit(x.cr4, 0x2000), x.segments);
      SetSegments(x);
      SetTables(x);
    }

    method GetSegments(was: seq<Segment>, ghost x: Registers) returns (r: seq<Segment>)
      requires |was| == 8
      ensures |r| == 8
      ensures Sized(x) && AllHold(fields, x.segments, ALL) ==>
                forall i | 0 <= i < 8 :: r[i] == ReadBack(was[i], x.segments[i])
    {
      hide Holds, SizedSegment;
      ghost var segments := if |x.segments| == 8 then x.segments else was;
      var cs := GetSegment(was[CS], CS, segments[CS]);
      var ss := GetSegment(was[SS], SS, segments[SS]);
      var ds := GetSegment(was[DS], DS, segments[DS]);
      var es := GetSegment(was[ES], ES, segments[ES]);
      var fs := GetSegment(was[FS], FS, segments[FS]);
      var gs := GetSegment(was[GS], GS, segments[GS]);
      var tr := GetSegment(was[TR], TR, segments[TR]);
      var ldt := GetSegment(was[LDTR], LDTR, segments[LDTR]);
      r := [es, cs, ss, ds, fs, gs, tr, ldt];
    }

    /** `kvm_get_sregs` after `kvm_set_sregs`: every register comes back, segments without their
        access rights, CR0 and CR4 with the bits the kext sets. `was` is the caller's structure. */
    method GetSregs(was: Registers, ghost x: Registers) returns (r: Registers)
      requires |was.segments| == 8
      ensures |r.segments| == 8
      ensures Holding(x) && Sized(x) ==>
                forall i | 0 <= i < 8 :: r.segments[i] == ReadBack(was.segments[i], x.segments[i])
      ensures Holding(x) && Sized(x) ==>
                r.gdt == x.gdt && r.idt == x.idt && r.cr2 == x.cr2 && r.cr3 == x.cr3 && r.efer == x.efer
      ensures Holding(x) && Sized(x) ==> r.cr0 == SetBit(x.cr0, 0x20) && r.cr4 == SetBit(x.cr4, 0x2000)
    {
      hide AllHold, SetBit;
      var cr0 := Read(GUEST_CR0);
      var cr3 := Read(GUEST_CR3);
      var cr4 := Read(GUEST_CR4);
      var segments := GetSegments(was.segments, x);
      var idtLimit := Read(GUEST_IDTR_LIMIT);
      var idtBase := Read(GUEST_IDTR_BASE);
      var gdtLimit := Read(GUEST_GDTR_LIMIT);
      var gdtBase := Read(GUEST_GDTR_BASE);
      var efer := Read(GUEST_IA32_EFER);
      var gdt, idt := Table(gdtBase, gdtLimit % 0x1_0000), Table(idtBase, idtLimit % 0x1_0000);
      r := Registers(segments, gdt, idt, cr0, cr2, cr3, cr4, efer);
    }
  }

  const ALL: set<nat> := {ES, CS, SS, DS, FS, GS, TR, LDTR}

  /** `now` is `was` with the bit of weight `b` set, and nothing else changed. */
  predicate Gained(was: nat, now: nat, b: nat)
    requires b > 0
  {
    now / b % 2 == 1 && now % b == was % b && now / (2 * b) == was / (2 * b)
  }

  predicate Is(fields: map<nat, nat>, f: nat, w: nat) {
    f in fields && fields[f] == w
  }

  /** A segment as it is read back into the caller's structure. */
  function ReadBack(was: Segment, g: Segment): Segment {
    was.(base := g.base, limit := g.limit, selector := g.selector)
  }

  lemma ControlsApart()
    ensures forall f, i | IsControl(f) && 0 <= i < 8 :: !IsFieldOf(f, i)
  {
    forall f, i | IsControl(f) && 0 <= i < 8
      ensures !IsFieldOf(f, i)
    {
      if IsFieldOf(f, i) {
        FieldsApart(f, i, i);
      }
    }
  }

  lemma AllHoldKept(fields: map<nat, nat>, f: nat, w: nat, segments: seq<Segment>)
    requires IsControl(f)
    ensures AllHold(fields, segments, ALL) ==> AllHold(fields[f := w], segments, ALL)
  {
    hide AccessRights;
    ControlsApart();
    if AllHold(fields, segments, ALL) {
      forall i | i in ALL
        ensures Holds(fields[f := w], i, segments[i])
      {
        assert Holds(fields, i, segments[i]) && !IsFieldOf(f, i);
      }
    }
  }

  lemma NoneHold(fields: map<nat, nat>, segments: seq<Segment>)
    requires |segments| == 8
    ensures AllHold(fields, segments, {})
  {
  }
}
