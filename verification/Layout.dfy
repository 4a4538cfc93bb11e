/** The guest-physical layout `kvm_create` registers, and the mapping it leaves behind. */
module Layout {
  import opened Radix
  import opened EptTables

  const DOSMEM: nat := 0xa0000
  const EXMEM: nat := 0xc0000
  const PCIMEM: nat := 0xf000_0000

  datatype Region = Region(size: nat, gpa: nat, user: nat)

  /** `(bytes + PAGE_SIZE - 1) & PAGE_MASK` in 64 bits. */
  function RoundUp(bytes: nat): nat {
    PageBase((bytes + 4095) % WORD)
  }

  /** The memory size is the least number of whole pages that holds `bytes`, but for the last
      4095 sizes of 64 bits, where the sum wraps and nothing is left. */
  lemma RoundsUp(bytes: nat)
    ensures bytes <= WORD - 4096 ==> RoundUp(bytes) % 4096 == 0 && bytes <= RoundUp(bytes)
    ensures bytes <= WORD - 4096 ==> forall m: nat | bytes <= 4096 * m :: RoundUp(bytes) <= 4096 * m
    ensures WORD - 4096 < bytes < WORD ==> RoundUp(bytes) == 0
  {
    if bytes <= WORD - 4096 {
      DivIs(bytes + 4095, WORD, (bytes + 4095) / WORD, (bytes + 4095) % WORD);
    } else if bytes < WORD {
      DivIs(bytes + 4095, WORD, 1, bytes + 4095 - WORD);
    }
  }

  /** Guest RAM: below the memory size and the PCI space at 0xf000_0000, outside the hole from
      640 to 768 KiB. */
  predicate IsRam(memory: nat, a: nat) {
    a < memory && a < 0xf000_0000 && !(0xa_0000 <= a < 0xc_0000)
  }

  /** A byte is in RAM when its page starts below the number of bytes asked for. */
  lemma RamByBytes(bytes: nat, a: nat)
    requires bytes <= WORD - 4096
    ensures IsRam(RoundUp(bytes), a) <==> IsRam(bytes, 4096 * (a / 4096))
    ensures IsRam(bytes, a) ==> IsRam(RoundUp(bytes), a)
  {
    hide RoundUp;
    RoundsUp(bytes);
    var q := RoundUp(bytes) / 4096;
    assert RoundUp(bytes) == 4096 * q;
    assert bytes <= 4096 * (a / 4096) ==> RoundUp(bytes) <= 4096 * (a / 4096);
  }

  /** No page that starts at or above the number of bytes asked for is RAM. */
  lemma RamBelow(bytes: nat, p: nat)
    ensures IsRam(RoundUp(bytes), 4096 * p) ==> IsRam(bytes, 4096 * p)
  {
    var sum := (bytes + 4095) % WORD;
    assert sum <= bytes + 4095 by {
      DivIs(bytes + 4095, WORD, (bytes + 4095) / WORD, sum);
    }
    assert RoundUp(bytes) <= sum;
  }

  /** `low_memory` */
  function Low(memory: nat, base: nat): Region {
    Region(if memory < DOSMEM then memory else DOSMEM, 0, base)
  }

  /** `extended_memory` */
  function Extended(memory: nat, base: nat): Region {
    var size := if memory >= PCIMEM then PCIMEM - EXMEM else if memory < EXMEM then 0 else memory - EXMEM;
    Region(size, EXMEM, base + EXMEM)
  }

  predicate InRegion(r: Region, a: nat) {
    r.gpa <= a < r.gpa + r.size
  }

  /** The two regions are whole pages, disjoint, and together exactly the pages of guest RAM that
      start below `bytes`: none at all where the rounding wraps. */
  lemma RegionsAreRam(bytes: nat, base: nat, a: nat)
    ensures var m := RoundUp(bytes);
            var low, ext := Low(m, base), Extended(m, base);
            && low.size % 4096 == 0 && ext.size % 4096 == 0 && ext.gpa % 4096 == 0
            && !(InRegion(low, a) && InRegion(ext, a))
            && (bytes <= WORD - 4096 ==>
                  (InRegion(low, a) || InRegion(ext, a) <==> IsRam(bytes, 4096 * (a / 4096))))
            && (WORD - 4096 < bytes < WORD ==> !InRegion(low, a) && !InRegion(ext, a))
            && (InRegion(low, a) ==> low.user + (a - low.gpa) == base + a)
            && (InRegion(ext, a) ==> ext.user + (a - ext.gpa) == base + a)
  {
    hide RoundUp;
    RegionsAreRounded(bytes, base, a);
    RoundsUp(bytes);
    if bytes <= WORD - 4096 {
      RamByBytes(bytes, a);
    }
  }

  lemma RegionsAreRounded(bytes: nat, base: nat, a: nat)
    ensures var m := RoundUp(bytes);
            var low, ext := Low(m, base), Extended(m, base);
            && low.size % 4096 == 0 && ext.size % 4096 == 0 && ext.gpa % 4096 == 0
            && !(InRegion(low, a) && InRegion(ext, a))
            && (InRegion(low, a) || InRegion(ext, a) <==> IsRam(m, a))
            && (InRegion(low, a) ==> low.user + (a - low.gpa) == base + a)
            && (InRegion(ext, a) ==> ext.user + (a - ext.gpa) == base + a)
  {
  }

  /** The pages of a region that were mapped when the lookup of host pages stopped. */
  function Reached(r: Region, wired: bool, host: nat -> nat): nat {
    if wired then Leading(r.user, host, PagesIn(r.size)) else 0
  }

  /** What mapping the first `k` pages of low and `l` pages of extended memory does to page `p`. */
  lemma RamMapped(m: map<nat, nat>, bytes: nat, base: nat, host: nat -> nat, k: nat, l: nat, p: nat)
    requires p < PAGES
    requires k <= PagesIn(Low(RoundUp(bytes), base).size) && l <= PagesIn(Extended(RoundUp(bytes), base).size)
    ensures var after := Mapped(Mapped(m, 0, base, host, k), EXMEM, base + EXMEM, host, l);
            if p < k || EXMEM / 4096 <= p < EXMEM / 4096 + l
            then IsRam(RoundUp(bytes), 4096 * p) && p in after && after[p] == host(base + 4096 * p)
            else SameAt(m, after, p)
  {
    RegionsAreRounded(bytes, base, 4096 * p);
    MappedAt(m, 0, base, host, k, p);
    MappedAt(Mapped(m, 0, base, host, k), EXMEM, base + EXMEM, host, l, p);
  }

  predicate SameAt(m: map<nat, nat>, after: map<nat, nat>, p: nat) {
    (p in after <==> p in m) && (p in m ==> after[p] == m[p])
  }

  /** The outcome of a failed registration: exactly the pages before the one without a host page. */
  predicate MappedUpTo(m: map<nat, nat>, after: map<nat, nat>, bytes: nat, base: nat,
                       wiredLow: bool, wiredExt: bool, host: nat -> nat)
  {
    var low, ext := Low(RoundUp(bytes), base), Extended(RoundUp(bytes), base);
    var k, l := Reached(low, wiredLow, host), Reached(ext, wiredExt, host);
    if k < PagesIn(low.size) || !wiredLow
    then after == Mapped(m, 0, base, host, k)
    else l < PagesIn(ext.size) && after == Mapped(Mapped(m, 0, base, host, k), EXMEM, base + EXMEM, host, l)
  }

  /** The byte at `a` is on the host page behind its place in the anonymous mapping. */
  predicate MappedAs(m: map<nat, nat>, a: nat, base: nat, host: nat -> nat) {
    a / 4096 in m && m[a / 4096] == host(base + 4096 * (a / 4096))
  }

  lemma OthersKept(m: map<nat, nat>, bytes: nat, base: nat, host: nat -> nat, k: nat, l: nat)
    requires k <= PagesIn(Low(RoundUp(bytes), base).size) && l <= PagesIn(Extended(RoundUp(bytes), base).size)
    ensures var after := Mapped(Mapped(m, 0, base, host, k), EXMEM, base + EXMEM, host, l);
            forall p | 0 <= p < PAGES && !(IsRam(bytes, 4096 * p) && IsRam(RoundUp(bytes), 4096 * p)) ::
              SameAt(m, after, p)
  {
    forall p | 0 <= p < PAGES && !(IsRam(bytes, 4096 * p) && IsRam(RoundUp(bytes), 4096 * p))
      ensures SameAt(m, Mapped(Mapped(m, 0, base, host, k), EXMEM, base + EXMEM, host, l), p)
    {
      RamBelow(bytes, p);
      RamMapped(m, bytes, base, host, k, l, p);
    }
  }

  lemma RamIsMapped(m: map<nat, nat>, after: map<nat, nat>, bytes: nat, base: nat, host: nat -> nat)
    requires var k, l := PagesIn(Low(RoundUp(bytes), base).size), PagesIn(Extended(RoundUp(bytes), base).size);
             after == Mapped(Mapped(m, 0, base, host, k), EXMEM, base + EXMEM, host, l)
    ensures bytes <= WORD - 4096 ==> forall a: nat | IsRam(bytes, a) :: MappedAs(after, a, base, host)
  {
    forall a: nat | bytes <= WORD - 4096 && IsRam(bytes, a)
      ensures MappedAs(after, a, base, host)
    {
      var p := a / 4096;
      RamByBytes(bytes, a);
      assert IsRam(RoundUp(bytes), 4096 * p);
      var k, l := PagesIn(Low(RoundUp(bytes), base).size), PagesIn(Extended(RoundUp(bytes), base).size);
      RegionsAreRounded(bytes, base, 4096 * p);
      RamMapped(m, bytes, base, host, k, l, p);
    }
  }

  lemma RoundedWithin(bytes: nat)
    ensures RoundUp(bytes) < WORD
    ensures !IsRam(RoundUp(bytes), 0xfee0_0000)
    ensures WORD - 4096 < bytes < WORD ==> forall p: nat :: !IsRam(RoundUp(bytes), 4096 * p)
  {
    RoundsUp(bytes);
  }

  /** Regions below 4 GiB are gone through to the end. */
  lemma SmallEnds(base: nat, host: nat -> nat)
    ensures forall size: nat, user: nat | size <= PCIMEM :: Ends(size, user, host)
  {
    hide Leading;
  }

  /** The memory part of `kvm_create`: `base` is the address of the anonymous mapping, and
      `wiredLow`, `wiredExt` and `host` are the kext's view of it. */
  method KvmCreate(vm: Tables, bytes: nat, base: nat, wiredLow: bool, wiredExt: bool, host: nat -> nat) returns (r: int)
    requires vm.Valid() && |vm.pool| >= 3 * 0xf_0000
    modifies vm
    ensures vm.Valid() && (r == 0 || r == -1)
    // nothing else is touched: no page at or above `bytes`, in the hole or at the APIC
    ensures forall p | 0 <= p < PAGES && !IsRam(bytes, 4096 * p) :: SameAt(old(vm.mapped), vm.mapped, p)
    ensures SameAt(old(vm.mapped), vm.mapped, 0xf_ee00)
    // every byte below `bytes` outside the hole is there, unless the rounding wraps
    ensures r == 0 && bytes <= WORD - 4096 ==>
              forall a: nat | IsRam(bytes, a) :: MappedAs(vm.mapped, a, base, host)
    ensures WORD - 4096 < bytes < WORD ==> forall p | 0 <= p < PAGES :: SameAt(old(vm.mapped), vm.mapped, p)
    ensures r == -1 ==> MappedUpTo(old(vm.mapped), vm.mapped, bytes, base, wiredLow, wiredExt, host)
  {
    hide vm.Valid, Mapped, Leading, PageOf, Ends, SameAt, IsRam, RoundUp, MappedAs;
    RoundedWithin(bytes);
    SmallEnds(base, host);
    ghost var k := Reached(Low(RoundUp(bytes), base), wiredLow, host);
    MappedStep(Mapped(vm.mapped, 0, base, host, k), EXMEM, base + EXMEM, host, 0);
    var memory := RoundUp(bytes);
    var low := Region(if memory < DOSMEM then memory else DOSMEM, 0, 0);
    var extended := Region(if memory < EXMEM then 0 else memory - EXMEM, EXMEM, 0);
    if memory >= PCIMEM {
      extended := extended.(size := PCIMEM - EXMEM);
    }
    OthersKept(vm.mapped, bytes, base, host, k, 0);
    OthersKept(vm.mapped, bytes, base, host, k, Reached(Extended(memory, base), wiredExt, host));
    low := low.(user := base);
    var ret := vm.SetUserMemoryRegion(low.gpa, low.size, low.user, wiredLow, host);
    if ret != 0 {
      return -1;
    }
    if extended.size != 0 {
      extended := extended.(user := base + EXMEM);
      ret := vm.SetUserMemoryRegion(extended.gpa, extended.size, extended.user, wiredExt, host);
      if ret != 0 {
        return -1;
      }
    }
    RamIsMapped(old(vm.mapped), vm.mapped, bytes, base, host);
    return 0;
  }
}
