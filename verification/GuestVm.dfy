/** The guest's memory manager, updated in place: free list, page tables, `vmalloc` and `vfree`. */
module GuestVm {
  import opened Radix
  import opened GuestTables
  import opened GuestHeap
  import opened GuestNeed
  import opened GuestWalk

  /** Frame number in bits 12-51 of an address or entry. */
  function FrameOf(w: nat): nat {
    w / 4096 % FRAMES
  }

  lemma FrameOfPte(f: nat)
    requires f < FRAMES
    ensures FrameOf(Pte(f)) == f && FrameOf(4096 * f) == f && Pte(f) % 2 == 1 && Pte(f) / 128 == 32 * f
  {
    DivIs(Pte(f), 4096, f, 3);
    DivIs(Pte(f), 128, 32 * f, 3);
    DivIs(Pte(f), 2, 2048 * f + 1, 1);
    DivIs(4096 * f, 4096, f, 0);
    DivIs(f, FRAMES, 0, f);
  }

  lemma InRange(w: nat)
    ensures FrameOf(w) < FRAMES
  {
  }

  lemma ListHead(heap: Blocks, head: nat, stack: seq<nat>)
    requires ListIs(heap, head, stack)
    ensures head == Below(stack, |stack|)
  {
  }

  lemma RoleOfHeap(s: State, f: nat)
    requires Sound(s)
    ensures f in s.heap <==> f in s.role
    ensures f in s.heap ==> |s.heap[f]| == 512
  {
  }

  lemma StrayIs(s: State, virt: nat)
    requires Key(PageOf(virt), 1) in s.large
    ensures StrayFrame(s, virt) == FrameOf(s.large[Key(PageOf(virt), 1)])
  {
  }

  lemma DataIsNotFree(s: State, v: nat)
    requires Sound(s) && v in s.data
    ensures s.data[v] in s.role && s.role[s.data[v]].Data? && s.data[v] > 0
  {
  }

  lemma DataPhysical(f: nat, virt: nat)
    requires f < FRAMES
    ensures Pte(f) % 2 == 1 && Writable(Pte(f)) && Physical(Pte(f), virt) == 4096 * f + virt % 4096
    ensures Pte(f) == 4096 * f + 3
  {
    hide Writable;
    TableEntry(f);
  }

  /** The entry of the identity map for an address is present and writable, and leads to it. */
  lemma IdentityFound(virt: nat, n: nat)
    requires PageOf(virt) < n <= PAGES
    ensures var e := IdentityPte(PageOf(virt), n);
            && e % 2 == 1 && Writable(e) && Physical(e, virt) == 4096 * PageOf(virt) + virt % 4096
            && e in {4096 * PageOf(virt) + 3, 0x20_0000 * (PageOf(virt) / 512) + 0x83}
  {
    hide PageOf, Physical, Writable;
    var p, o := PageOf(virt), virt % 4096;
    DivIs(4096 * p + o, 4096, p, o);
    IdentityTranslates(4096 * p + o, n);
    IdentityRights(p, n);
    SamePhysical(IdentityPte(p, n), virt, 4096 * p + o);
  }

  lemma IdentityRights(p: nat, n: nat)
    requires p < n <= PAGES
    ensures IdentityPte(p, n) % 2 == 1 && Writable(IdentityPte(p, n))
    ensures IdentityPte(p, n) in {4096 * p + 3, 0x20_0000 * (p / 512) + 0x83}
  {
    if p < 512 * (n / 512) {
      var k := p / 512;
      DivIs(0x20_0000 * k + 0x83, 2, 0x10_0000 * k + 0x41, 1);
      DivIs(0x10_0000 * k + 0x41, 2, 0x8_0000 * k + 0x20, 1);
    } else {
      hide Writable;
      TableEntry(p);
    }
  }

  /** Only the low 21 bits of the address matter once the entry is known. */
  lemma SamePhysical(e: nat, virt: nat, a: nat)
    requires a == 4096 * PageOf(virt) + virt % 4096
    ensures Physical(e, virt) == Physical(e, a)
  {
    hide IsLarge;
    var q, r := virt / 0x1_0000_0000_0000, virt % 0x1_0000_0000_0000;
    assert r == a by {
      DivIs(virt / 4096, PAGES, q, r / 4096);
    }
    DivIs(virt, 4096, 0x10_0000_0000 * q + r / 4096, r % 4096);
    DivIs(virt, 0x20_0000, 0x800_0000 * q + r / 0x20_0000, r % 0x20_0000);
  }

  class Guest {
    /** The pages under management, 512 words each, by frame. */
    var heap: Blocks
    /** Address of the first free page, 0 when there is none. */
    var free: nat
    /** Address of the root table. */
    var cr3: nat
    /** Address below which `vmalloc` places the next allocation. */
    var vfreeTop: nat

    ghost var g: State
    /** Live allocations: first virtual page to number of pages, and page to first page. */
    ghost var blocks: map<nat, nat>
    ghost var owner: map<nat, nat>
    /** Virtual pages handed out so far, and pages mapped to themselves. */
    ghost var used: nat
    ghost var id: nat

    ghost predicate Mirrored()
      reads this
    {
      heap == g.heap && free == Below(g.stack, |g.stack|)
    }

    ghost predicate Rooted()
      reads this
    {
      ROOT in g.at && cr3 == 4096 * g.at[ROOT] && g.at[ROOT] < FRAMES
    }

    ghost predicate Valid()
      reads this
    {
      Mirrored() && Sound(g) && Rooted()
    }

    /** What holds between calls once `setup_vm` has run: the pages under management lie in the
        part of memory that is mapped to itself. */
    ghost predicate Ready()
      reads this
    {
      Settled() && forall f | f in g.role :: f < id
    }

    /** The same, wherever the pages under management lie. */
    ghost predicate Settled()
      reads this
    {
      Valid() && Steady(g, blocks, owner, used, id) && vfreeTop == TopAddress(used)
    }

    /** What the code reads and writes at the address of a page under management, after the load
        of `cr3`, is that page. */
    lemma FoundAtOwnAddress(f: nat, o: nat)
      requires Ready() && f in g.role && o < 4096
      ensures Physical(Lookup(g, f), 4096 * f + o) == 4096 * f + o
    {
      ReachedAtOwnAddress(g, blocks, owner, used, id, f, o);
    }

    constructor ()
      ensures Mirrored() && Sound(g) && NoneLost(g) && g.role == map[] && g.at == map[] && g.data == map[]
      ensures g.small == map[] && g.large == map[] && g.stack == [] && vfreeTop == 0
    {
      heap := map[];
      free, cr3, vfreeTop := 0, 0, 0;
      g := State(map[], [], map[], map[], map[], map[], map[]);
    }

    /** `alloc_page`: takes the topmost page off the list, if there is one. */
    method AllocPage(ghost stack: seq<nat>) returns (p: nat)
      requires ListIs(heap, free, stack)
      modifies this`free
      ensures if stack == [] then p == 0 && free == 0
              else p == 4096 * stack[|stack| - 1] && ListIs(heap, free, stack[..|stack| - 1])
    {
      if free == 0 {
        return 0;
      }
      FrameOfPte(stack[|stack| - 1]);
      p := free;
      free := heap[FrameOf(free)][0];
    }

    /** `free_page`: puts the page on top of the list, whose pages it leaves alone. */
    method FreePage(page: nat, ghost stack: seq<nat>)
      requires var f := FrameOf(page); page == 4096 * f && f > 0 && f in heap && |heap[f]| == 512 && f !in stack
      requires ListIs(heap, free, stack)
      modifies this`heap, this`free
      ensures ListIs(heap, free, stack + [FrameOf(page)])
      ensures heap == Put(old(heap), FrameOf(page), 0, old(free))
    {
      heap := Put(heap, FrameOf(page), 0, free);
      ListFrame(old(heap), heap, free, stack);
      assert (stack + [FrameOf(page)])[..|stack|] == stack;
      free := page;
    }

    /** A new table from the free list, entered in `pt`. */
    method NewTable(pt: nat, i: nat, ghost n: Node)
      requires Mirrored() && Sound(g) && HeadReady(g) && HasTable(g, n) && n.level >= 1 && i < 512
      requires pt == 4096 * g.at[n] && g.at[n] < FRAMES
      modifies this`heap, this`free, this`g
      ensures Mirrored() && g == Grown(old(g), n, i)
    {
      hide Sound, FrameOf;
      FrameOfPte(g.at[n]);
      FrameOfPte(Head(g));
      SoundList(g);
      var page := AllocPage(g.stack);
      ListHead(heap, free, g.stack[..|g.stack| - 1]);
      heap := heap[FrameOf(page) := Zeroes(512)];
      heap := Put(heap, FrameOf(pt), i, page + 3);
      g := Grown(g, n, i);
    }

    /** The body of the loop of `install_pte`: the table behind entry `i` of `pt`. */
    method NextTable(pt: nat, i: nat, ghost n: Node) returns (next: nat)
      requires Mirrored() && Sound(g) && GuestTables.Ready(g, n, i) && pt == 4096 * g.at[n] && g.at[n] < FRAMES
      modifies this`heap, this`free, this`g
      ensures Mirrored() && g == Filled(old(g), n, i)
      ensures Child(n, i) in g.at && next == 4096 * g.at[Child(n, i)] && g.at[Child(n, i)] < FRAMES
    {
      hide Sound, FrameOf;
      FrameOfPte(g.at[n]);
      if Child(n, i) in g.at {
        FrameOfPte(g.at[Child(n, i)]);
      }
      if heap[FrameOf(pt)][i] % 2 == 0 {
        FrameOfPte(Head(g));
        NewTable(pt, i, n);
      }
      next := 4096 * FrameOf(heap[FrameOf(pt)][i]);
    }

    /** `install_pte` */
    method InstallPte(level: nat, virt: nat, pte: nat)
      requires Valid() && 1 <= level <= 2 && Buildable(g, PageOf(virt), level)
      requires level == 2 ==> IsLarge(pte)
      modifies this`heap, this`free, this`g
      ensures Valid() && g == Installed(old(g), virt, level, pte)
    {
      hide Sound, Filled, GuestTables.Ready, Deeper, Took, Buildable;
      hide TableOf, PageOf, Index, IsLarge, Descended, Installed, FrameOf;
      ghost var s, p := g, PageOf(virt);
      var l, pt := 4, cr3;
      DescendedTop(s, virt);
      while l > level
        invariant level <= l <= 4 && Mirrored() && g == Descended(s, virt, l)
        invariant TableOf(p, l) in g.at && pt == 4096 * g.at[TableOf(p, l)] && g.at[TableOf(p, l)] < FRAMES
      {
        BuildableTo(s, p, level, l);
        BuildableTo(s, p, level, l - 1);
        DescendedSound(s, virt, l);
        DescendedStep(s, virt, l - 1);
        pt := NextTable(pt, Index(virt, l), TableOf(p, l));
        l := l - 1;
      }
      InstalledIs(s, virt, level, pte);
      InstalledSound(s, virt, level, pte);
      InstalledTook(s, virt, level, pte);
      RootKept(s, Installed(s, virt, level, pte), p, level);
      FrameOfPte(g.at[TableOf(p, level)]);
      heap := Put(heap, FrameOf(pt), Index(virt, l), pte);
      g := Installed(s, virt, level, pte);
    }

    /** `get_pte` */
    method GetPte(virt: nat) returns (pte: nat)
      requires Valid()
      ensures pte == Lookup(g, PageOf(virt))
    {
      hide Sound, TableOf, PageOf, Index, FrameOf;
      ghost var p := PageOf(virt);
      var level, pt := 4, cr3;
      DescendedTop(g, virt);
      while level > 1
        invariant 1 <= level <= 4
        invariant TableOf(p, level) in g.at && pt == 4096 * g.at[TableOf(p, level)]
      {
        WalkStep(g, virt, level);
        FrameOfPte(g.at[TableOf(p, level)]);
        pte := heap[FrameOf(pt)][Index(virt, level)];
        if pte % 2 == 0 {
          return 0;
        }
        if level == 2 && pte / 128 % 2 == 1 {
          return pte;
        }
        FrameOfPte(g.at[TableOf(p, level - 1)]);
        pt := 4096 * FrameOf(pte);
        level := level - 1;
      }
      WalkEnd(g, virt);
      FrameOfPte(g.at[TableOf(p, 1)]);
      pte := heap[FrameOf(pt)][Index(virt, level)];
    }

    /** The body of the loop of `free_memory`, for a page with the given contents. */
    method GivePage(page: nat, words: seq<nat>)
      requires Mirrored() && Sound(g) && |words| == 512
      requires var f := FrameOf(page); page == 4096 * f && f > 0 && f !in g.role
      modifies this`heap, this`free, this`g
      ensures Mirrored() && Sound(g) && g == Given(old(g), FrameOf(page), words)
    {
      hide Sound, FrameOf;
      ghost var f := FrameOf(page);
      InRange(page);
      GivenSound(g, f, words);
      SoundList(g);
      heap := heap[FrameOf(page) := words];
      ListFrame(g.heap, heap, free, g.stack);
      FreePage(page, g.stack);
      ListHead(heap, free, g.stack + [f]);
      g := Given(g, f, words);
    }

    /** `free_memory` for the page-aligned range of `size` bytes at `mem`, whose contents are `ram`. */
    method FreeMemory(mem: nat, size: nat, ram: Blocks)
      requires Mirrored() && Sound(g)
      requires mem % 4096 == 0 && mem > 0 && mem / 4096 + size / 4096 <= FRAMES
      requires forall f | mem / 4096 <= f < mem / 4096 + size / 4096 :: f in ram && |ram[f]| == 512 && f !in g.role
      modifies this`heap, this`free, this`g
      ensures Mirrored() && Sound(g)
      ensures g.at == old(g.at) && g.data == old(g.data) && g.small == old(g.small) && g.large == old(g.large)
      ensures forall f: nat :: f in g.role <==> f in old(g.role) || mem / 4096 <= f < mem / 4096 + size / 4096
      ensures NoneLost(old(g)) ==> NoneLost(g)
      ensures |g.stack| == |old(g.stack)| + size / 4096
    {
      hide Sound, FrameOf, Put;
      ghost var first, n := mem / 4096, 0;
      var m, left: nat := mem, size;
      while left >= PAGE_SIZE
        invariant Mirrored() && Sound(g) && m == 4096 * (first + n) && left + 4096 * n == size
        invariant g.at == old(g.at) && g.data == old(g.data) && g.small == old(g.small) && g.large == old(g.large)
        invariant forall f: nat :: f in g.role <==> f in old(g.role) || first <= f < first + n
        invariant NoneLost(old(g)) ==> NoneLost(g)
        invariant |g.stack| == |old(g.stack)| + n
      {
        FrameOfPte(first + n);
        GivePage(m, ram[FrameOf(m)]);
        m := m + PAGE_SIZE;
        left := left - PAGE_SIZE;
        n := n + 1;
      }
      DivIs(size, 4096, n, left);
    }

    /** The first loop of `setup_mmu`. */
    method MapLarge(len: nat) returns (phys: nat)
      requires Valid() && LargePhase(g, len / 4096, 0) && len / 4096 <= PAGES && g.data == map[]
      modifies this`heap, this`free, this`g
      ensures Valid() && SmallPhase(g, len / 4096, 0) && SamePages(old(g), g) && g.data == map[]
      ensures phys == 4096 * (512 * (len / 4096 / 512))
    {
      hide Sound, LargePhase, SmallPhase, Installed, SamePages, PageOf, Buildable;
      ghost var n, k := len / 4096, 0;
      phys := 0;
      SamePagesSelf(g);
      while phys + 512 * PAGE_SIZE <= len
        invariant Valid() && k <= n / 512 && phys == 4096 * (512 * k) && LargePhase(g, n, k)
        invariant SamePages(old(g), g) && g.data == map[]
      {
        WholeLarge(len, k);
        LargeTurn(g, n, k);
        LargeEntry(k);
        SamePagesMore(old(g), g, Installed(g, phys, 2, phys + 0x83));
        InstallPte(2, phys, phys + 0x83);
        phys := phys + 512 * PAGE_SIZE;
        k := k + 1;
      }
      WholeLarge(len, k);
      PhasesMeet(g, n);
    }

    /** The second loop. */
    method MapSmall(len: nat, start: nat)
      requires Valid() && SmallPhase(g, len / 4096, 0) && g.data == map[]
      requires start == 4096 * (512 * (len / 4096 / 512))
      modifies this`heap, this`free, this`g
      ensures Valid() && SmallPhase(g, len / 4096, len / 4096 % 512) && SamePages(old(g), g) && g.data == map[]
    {
      hide Sound, SmallPhase, Installed, SamePages, PageOf, Buildable;
      ghost var n, j := len / 4096, 0;
      var phys := start;
      SamePagesSelf(g);
      while phys + PAGE_SIZE <= len
        invariant Valid() && j <= n % 512 && phys == 4096 * (512 * (n / 512) + j) && SmallPhase(g, n, j)
        invariant SamePages(old(g), g) && g.data == map[]
      {
        ghost var p := 512 * (n / 512) + j;
        WholeSmall(len, p);
        SmallTurn(g, n, j, p);
        SamePagesMore(old(g), g, Installed(g, phys, 1, phys + 3));
        InstallPte(1, phys, phys + 3);
        phys := phys + PAGE_SIZE;
        j := j + 1;
      }
      WholeSmall(len, 512 * (n / 512) + j);
    }

    /** The first lines of `setup_mmu`: an empty root. */
    method TakeRoot()
      requires Mirrored() && Sound(g) && g.stack != [] && g.at == map[]
      modifies this`heap, this`free, this`g, this`cr3
      ensures Valid() && g == RootTaken(old(g))
    {
      hide Sound, FrameOf;
      RootTakenSound(g);
      IsHeadReady(g);
      FrameOfPte(Head(g));
      SoundList(g);
      cr3 := AllocPage(g.stack);
      ListHead(heap, free, g.stack[..|g.stack| - 1]);
      heap := heap[FrameOf(cr3) := Zeroes(512)];
      g := RootTaken(g);
    }

    /** `setup_mmu` up to the load of `cr3`: needs a root, and the tables its two loops need.
        It maps every whole page below `len` to itself, and no other page. */
    method SetupMmu(len: nat)
      requires Mirrored() && Sound(g) && NoneLost(g) && len / 4096 <= PAGES && vfreeTop == 0
      requires g.at == map[] && g.data == map[] && g.small == map[] && g.large == map[]
      requires |g.stack| >= TablesFor(len / 4096)
      modifies this
      ensures Settled() && id == len / 4096 && used == 0 && blocks == map[]
      ensures g.role.Keys == old(g.role.Keys) && IdentityUpTo(g, id, id)
    {
      hide Sound, FrameOf, LargePhase, SmallPhase, TablesFor, NoneLost, SamePages, Steady, IdentityUpTo, RootTaken;
      ghost var n := len / 4096;
      FirstPhase(g, n);
      RootTakenRest(g);
      TakeRoot();
      ghost var s := g;
      var phys := MapLarge(len);
      SamePagesMore(old(g), s, g);
      s := g;
      MapSmall(len, phys);
      SamePagesMore(old(g), s, g);
      id, used, blocks, owner := n, 0, map[], map[];
      NoneLostStays(old(g), g);
      PhasesEnd(g, n);
    }

    /** `setup_vm` for the memory from `start` (the end of the program) to `end`. */
    method SetupVm(start: nat, end: nat, ram: Blocks)
      requires Mirrored() && Sound(g) && g == State(map[], [], map[], map[], map[], map[], map[]) && vfreeTop == 0
      requires 0 < start <= end && start % 4096 == 0 && end / 4096 <= PAGES
      requires (end - start) / 4096 >= TablesFor(end / 4096)
      requires forall f | start / 4096 <= f < start / 4096 + (end - start) / 4096 :: f in ram && |ram[f]| == 512
      modifies this
      ensures Ready() && id == end / 4096 && used == 0 && blocks == map[]
      ensures forall f: nat :: f in g.role <==> start / 4096 <= f < start / 4096 + (end - start) / 4096
      ensures IdentityUpTo(g, id, id)
    {
      hide Sound, TablesFor, Steady, IdentityUpTo;
      FreeMemory(start, end - start, ram);
      SetupMmu(end);
    }

    /** The processor, walking the words in memory from `cr3`, finds the entry in force. */
    lemma ProcessorAgrees(virt: nat)
      requires Valid()
      ensures ProcessorWalk(heap, FrameOf(cr3), virt, 4) == Found(g, PageOf(virt))
    {
      hide Sound, PageOf, FrameOf, ProcessorWalk, Found;
      FrameOfPte(g.at[ROOT]);
      ProcessorFinds(g, virt);
    }

    lemma DataFound(virt: nat)
      requires Valid() && PageOf(virt) in g.data && Lookup(g, PageOf(virt)) == Pte(g.data[PageOf(virt)])
      ensures var v := PageOf(virt);
              && HasData(g, v) && g.data[v] < FRAMES && FrameOf(Pte(g.data[v])) == g.data[v]
              && ProcessorWalk(heap, FrameOf(cr3), virt, 4).Leaf?
              && ProcessorWalk(heap, FrameOf(cr3), virt, 4).entry == Pte(g.data[v])
              && ProcessorWalk(heap, FrameOf(cr3), virt, 4).writable
    {
      hide Sound, PageOf, FrameOf, Lookup, ProcessorWalk, Writable;
      ProcessorAgrees(virt);
      DataInRange(g, PageOf(virt));
      TableEntry(g.data[PageOf(virt)]);
      FrameOfPte(g.data[PageOf(virt)]);
    }

    /** Between calls every address of a live allocation leads the processor, with the right to
        write, to the page behind it; and every address of the identity map to itself. The entry
        there has the present and the writable bit and no other but, for 2 MB, the page-size bit. */
    lemma EverythingWritable(virt: nat)
      requires Ready()
      ensures var walk, v := ProcessorWalk(heap, FrameOf(cr3), virt, 4), PageOf(virt);
              && (v in g.data || v < id ==> walk.Leaf? && walk.writable)
              && (v in g.data ==> walk.entry == 4096 * g.data[v] + 3)
              && (v in g.data ==> Physical(walk.entry, virt) == 4096 * g.data[v] + virt % 4096)
              && (v < id ==> walk.entry in {4096 * v + 3, 0x20_0000 * (v / 512) + 0x83})
              && (v < id ==> Physical(walk.entry, virt) == 4096 * v + virt % 4096)
    {
      hide Sound, PageOf, FrameOf, Lookup, ProcessorWalk, Writable, Steady, Physical, Pte, IdentityPte;
      ghost var v := PageOf(virt);
      ProcessorAgrees(virt);
      if v in g.data {
        SteadyMapped(g, blocks, owner, used, id, v);
        DataInRange(g, v);
        DataPhysical(g.data[v], virt);
      }
      if v < id {
        SteadyIdentity(g, blocks, owner, used, id, v);
        IdentityFound(virt, id);
      }
    }

    /** A store through the page tables, by the processor's own walk; one without the right to
        write would fault. */
    method Store(virt: nat, w: nat)
      requires Valid() && virt % 8 == 0 && PageOf(virt) in g.data
      requires Lookup(g, PageOf(virt)) == Pte(g.data[PageOf(virt)])
      modifies this`heap, this`g
      ensures Valid() && HasData(old(g), PageOf(virt)) && g == Scribbled(old(g), PageOf(virt), virt % 4096 / 8, w)
    {
      hide Sound, PageOf, FrameOf, Lookup, ProcessorWalk, Pte;
      ghost var v := PageOf(virt);
      DataFound(virt);
      ScribbledSound(g, v, virt % 4096 / 8, w);
      var walk := ProcessorWalk(heap, FrameOf(cr3), virt, 4);
      if walk.Leaf? && walk.writable {
        heap := Put(heap, FrameOf(walk.entry), virt % 4096 / 8, w);
      }
      g := Scribbled(g, v, virt % 4096 / 8, w);
    }

    /** A load, likewise. */
    method Load(virt: nat) returns (w: nat)
      requires Valid() && virt % 8 == 0 && PageOf(virt) in g.data
      requires Lookup(g, PageOf(virt)) == Pte(g.data[PageOf(virt)])
      ensures HasData(g, PageOf(virt)) && w == g.heap[g.data[PageOf(virt)]][virt % 4096 / 8]
    {
      hide Sound, PageOf, FrameOf, Lookup, ProcessorWalk, Pte;
      DataFound(virt);
      var walk := ProcessorWalk(heap, FrameOf(cr3), virt, 4);
      w := heap[FrameOf(walk.entry)][virt % 4096 / 8];
    }

    /** `install_pte` for a small page where there is a large one: the loop takes the large entry
        for that of a table, and the store goes into the first page it maps, whether or not that
        page is under management. */
    method InstallUnderLarge(virt: nat, pte: nat)
      requires Valid() && Key(PageOf(virt), 1) in g.large
      modifies this`heap
      ensures heap == Strayed(g, virt, pte)
      ensures StrayFrame(g, virt) !in g.role ==> Valid()
    {
      hide Sound, TableOf, PageOf, Index, FrameOf, Key, Lookup, Pte;
      ghost var p := PageOf(virt);
      var level, pt := 4, cr3;
      DescendedTop(g, virt);
      while level > 2
        invariant 2 <= level <= 4 && heap == old(heap)
        invariant TableOf(p, level) in g.at && pt == 4096 * g.at[TableOf(p, level)]
      {
        WalkStep(g, virt, level);
        MappedHasPath(g, p, level - 1);
        FrameOfPte(g.at[TableOf(p, level)]);
        FrameOfPte(g.at[TableOf(p, level - 1)]);
        pt := 4096 * FrameOf(heap[FrameOf(pt)][Index(virt, level)]);
        level := level - 1;
      }
      WalkStep(g, virt, 2);
      NoTableUnderLarge(g, p);
      FrameOfPte(g.at[TableOf(p, 2)]);
      var f := FrameOf(heap[FrameOf(pt)][Index(virt, level)]);
      StrayIs(g, virt);
      RoleOfHeap(g, f);
      if f in heap {
        heap := Put(heap, f, Index(virt, 1), pte);
      }
    }

    /** The body of the loop of `vmalloc`. */
    method AttachPage(virt: nat)
      requires Valid() && HeadReady(g)
      requires Sound(Taken(g, PageOf(virt))) && Buildable(Taken(g, PageOf(virt)), PageOf(virt), 1)
      modifies this`heap, this`free, this`g
      ensures Valid() && g == Attached(old(g), virt)
    {
      hide Sound, PageOf, FrameOf, Installed, Buildable;
      FrameOfPte(Head(g));
      SoundList(g);
      var page := AllocPage(g.stack);
      ListHead(heap, free, g.stack[..|g.stack| - 1]);
      g := Taken(g, PageOf(virt));
      InstallPte(1, virt, page + 3);
    }

    /** The loop of `vmalloc`: attaches `count` pages from the address `virt` on. */
    method AttachPages(virt: nat, count: nat)
      requires Valid() && virt < WORD && Allocating(g, blocks, owner, id, PageOf(virt), count, PageOf(virt))
      modifies this`heap, this`free, this`g
      ensures Valid() && Allocating(g, blocks, owner, id, PageOf(virt), count, PageOf(virt) + count)
      ensures Grew(old(g), g) && Undisturbed(old(g), g)
      ensures forall u: nat :: u in g.data <==> u in old(g.data) || PageOf(virt) <= u < PageOf(virt) + count
    {
      hide Sound, PageOf, FrameOf, Live, Grew, Undisturbed, NoneLost, Enough, Taken, Installed, Attached, Buildable;
      ghost var s, lo := g, PageOf(virt);
      GrewNot(g);
      UndisturbedSelf(g);
      var p: nat, pages := virt, count;
      ghost var v := lo;
      while pages > 0
        invariant Valid() && lo <= v <= lo + count && pages == lo + count - v
        invariant (v < lo + count ==> p < WORD && PageOf(p) == v)
        invariant Allocating(g, blocks, owner, id, lo, count, v) && Grew(s, g) && Undisturbed(s, g)
        invariant forall u: nat :: u in g.data <==> u in s.data || lo <= u < v
      {
        AllocationTurn(g, blocks, owner, id, lo, count, p);
        UndisturbedMore(s, g, Attached(g, p));
        GrewMore(s, g, Attached(g, p));
        AttachPage(p);
        NextPage(p);
        p := (p + PAGE_SIZE) % WORD;
        pages := pages - 1;
        v := v + 1;
      }
    }

    /** The first lines of `vmalloc`: rounds up and moves `vfree_top` down. */
    method Reserve(size: nat) returns (bytes: nat)
      requires used <= PAGES && vfreeTop == TopAddress(used) && size + 8 + 4095 < WORD
      requires (size + 8 + 4095) / 4096 < 0x1_0000_0000 && used + (size + 8 + 4095) / 4096 <= PAGES
      modifies this`vfreeTop
      ensures var n := (size + 8 + 4095) / 4096;
              && n > 0 && bytes == 4096 * n && bytes / 4096 % 0x1_0000_0000 == n && vfreeTop == TopAddress(used + n)
              && PageOf(vfreeTop) == PAGES - used - n && vfreeTop % 4096 == 0 && vfreeTop % 8 == 0
    {
      hide PageOf, TopAddress;
      RoundedUp(size + 8 + 4095);
      bytes := PageBase((size + 8 + 4095) % WORD);
      TopMoves(used, (size + 8 + 4095) / 4096);
      vfreeTop := (vfreeTop + WORD - bytes) % WORD;
      WordAligned(vfreeTop);
    }

    /** The user of an allocation may write anywhere but in its header. */
    method UserStore(virt: nat, w: nat)
      requires Ready() && virt % 8 == 0 && PageOf(virt) in g.data
      requires PageOf(virt) in blocks ==> virt % 4096 != 0
      modifies this`heap, this`g
      ensures Ready() && SamePages(old(g), g) && g.data == old(g.data) && g.at == old(g.at) && g.stack == old(g.stack)
    {
      hide Sound, PageOf, Lookup, Steady;
      SteadyMapped(g, blocks, owner, used, id, PageOf(virt));
      ScribbledSteady(g, blocks, owner, used, id, PageOf(virt), virt % 4096 / 8, w);
      Store(virt, w);
    }

    /** The rest of `vmalloc`: the pages at `mem` and the header. */
    method FillBlock(mem: nat, bytes: nat, ghost n: nat)
      requires Valid() && Steady(g, blocks, owner, used, id) && n > 0 && bytes / 4096 % 0x1_0000_0000 == n
      requires bytes == 4096 * n
      requires used + n + id <= PAGES && Enough(g, PAGES - used - n, n)
      requires mem < WORD && mem % 4096 == 0 && mem % 8 == 0 && PageOf(mem) == PAGES - used - n
      modifies this`heap, this`free, this`g
      ensures var lo := PAGES - used - n;
              && Valid() && Steady(g, blocks[lo := n], Claimed(owner, lo, n), used + n, id)
              && Grew(old(g), g) && Undisturbed(old(g), g)
              && (forall v: nat :: v in g.data <==> v in old(g.data) || lo <= v < lo + n)
              && (forall v | v in old(g.data) :: lo + n <= v < PAGES)
    {
      hide Sound, PageOf, FrameOf, Lookup, Steady, Allocating, Live;
      hide Grew, Undisturbed, NoneLost, Enough, Scribbled, Claimed, Valid;
      ghost var lo, s := PAGES - used - n, g;
      AllocationStarts(g, blocks, owner, used, id, n);
      SteadyFacts(g, blocks, owner, used, id);
      AttachPages(mem, bytes / 4096 % 0x1_0000_0000);
      AllocationMapped(g, blocks, owner, id, lo, n);
      ghost var t := g;
      IsSound();
      Store(mem, bytes);
      AllocationEnds(t, g, blocks, owner, id, lo, n);
      ScribbledUndisturbed(s, t, g, lo, 0, bytes);
      ScribbledGrew(t, g, lo, 0, bytes);
      GrewMore(s, t, g);
    }

    lemma IsSound()
      requires Valid()
      ensures Sound(g)
    {
    }

    /** `vmalloc`, with enough free pages and virtual space: takes whole pages for `size` bytes
        and a header word from the free list, and maps them just below the last allocation. */
    method Vmalloc(size: nat) returns (mem: nat)
      requires Ready() && size + 8 + 4095 < WORD
      requires var n := (size + 8 + 4095) / 4096;
               n < 0x1_0000_0000 && used + n + id <= PAGES && Enough(g, PAGES - used - n, n)
      modifies this
      ensures Ready() && id == old(id) && used == old(used) + (size + 8 + 4095) / 4096
      ensures size + 8 <= 4096 * (used - old(used)) < size + 8 + 4096
      ensures mem == TopAddress(used) + 8 && PageOf(mem) == PAGES - used
      ensures blocks == old(blocks)[PAGES - used := (size + 8 + 4095) / 4096]
      ensures Grew(old(g), g) && Undisturbed(old(g), g)
      ensures forall v: nat :: v in g.data <==> v in old(g.data) || PAGES - used <= v < PAGES - old(used)
      ensures forall v | PAGES - used <= v < PAGES - old(used) :: g.data[v] in old(g.stack)
    {
      hide Sound, PageOf, FrameOf, Steady, Grew, Undisturbed, NoneLost, Enough, Claimed, TopAddress;
      ghost var n, s := (size + 8 + 4095) / 4096, g;
      ghost var lo := PAGES - used - n;
      SteadyFacts(g, blocks, owner, used, id);
      var bytes := Reserve(size);
      mem := vfreeTop;
      FillBlock(mem, bytes, n);
      GrewRole(s, g);
      AllCameFromFree(s, g, lo, lo + n);
      blocks, owner, used := blocks[lo := n], Claimed(owner, lo, n), used + n;
      HeaderOffset(mem);
      mem := mem + 8;
    }

    /** The body of the loop of `vfree`. */
    method DetachPage(virt: nat)
      requires Valid() && HasData(g, PageOf(virt)) && g.data[PageOf(virt)] < FRAMES
      requires Lookup(g, PageOf(virt)) == Pte(g.data[PageOf(virt)]) && Sound(Freed(g, PageOf(virt)))
      modifies this`heap, this`free, this`g
      ensures Valid() && g == Freed(old(g), PageOf(virt))
    {
      hide Sound, PageOf, FrameOf, Lookup;
      var pte := GetPte(virt);
      FrameOfPte(g.data[PageOf(virt)]);
      SoundList(g);
      DataIsNotFree(g, PageOf(virt));
      FreePage(4096 * FrameOf(pte), g.stack);
      ListHead(heap, free, g.stack + [g.data[PageOf(virt)]]);
      g := Freed(g, PageOf(virt));
    }

    /** The loop of `vfree`: detaches `bytes` bytes of pages from the address `virt` on. */
    method DetachPages(virt: nat, bytes: nat, ghost n: nat)
      requires Valid() && virt < WORD && bytes == 4096 * n
      requires Freeing(g, blocks, owner, used, id, PageOf(virt), PageOf(virt) + n)
      modifies this`heap, this`free, this`g
      ensures Valid() && Freeing(g, blocks, owner, used, id, PageOf(virt) + n, PageOf(virt) + n)
      ensures Since(old(g), g, PageOf(virt), PageOf(virt) + n)
    {
      hide Sound, PageOf, FrameOf, Lookup, Live, IdentityBelow, NoneLost, Freed, Since;
      ghost var s, a := g, PageOf(virt);
      ghost var v, hi := a, a + n;
      var mem: nat, size := virt, bytes;
      SinceNow(g, a);
      while size != 0
        invariant a <= v <= hi <= PAGES && size == 4096 * (hi - v) && (v < hi ==> mem < WORD && PageOf(mem) == v)
        invariant Valid() && Freeing(g, blocks, owner, used, id, v, hi) && Since(s, g, a, v)
      {
        FreeingTurn(g, blocks, owner, used, id, v, hi);
        SinceMore(s, g, a, v);
        DetachPage(mem);
        NextPage(mem);
        mem := (mem + PAGE_SIZE) % WORD;
        size := size - PAGE_SIZE;
        v := v + 1;
      }
    }

    /** `vfree`: exactly the data pages of the allocation go back on the free list. */
    method Vfree(mem: nat)
      requires Ready() && mem < WORD && mem % 4096 == 8 && PageOf(mem) in blocks
      modifies this
      ensures Ready() && id == old(id) && used == old(used) && blocks == old(blocks) - {PageOf(mem)}
      ensures Since(old(g), g, PageOf(mem), PageOf(mem) + old(blocks)[PageOf(mem)])
    {
      hide Sound, PageOf, FrameOf, Lookup, Steady, Freeing, Since;
      ghost var a, n := PageOf(mem), blocks[PageOf(mem)];
      FreeingStarts(g, blocks, owner, used, id, a);
      FreeingHead(g, blocks - {a}, owner, used, id, a, a + n);
      HeaderAddress(mem);
      WordAligned(mem - 8);
      var size := Load(mem - 8);
      blocks := blocks - {a};
      DetachPages(mem, size, n);
      SinceRole(old(g), g, a, a + n);
      FreeingEnds(g, blocks, owner, used, id, a + n);
    }
  }
}
