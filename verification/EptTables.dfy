/** The tables as the kext updates them in place, and what a caller sees of them. */
module EptTables {
  import opened Radix
  import opened Ept

  const EINVAL := 22

  /** The map after the first `n` pages of a region at `gpa` were given the host pages at `user`. */
  function Mapped(m: map<nat, nat>, gpa: nat, user: nat, host: nat -> nat, n: nat): map<nat, nat> {
    if n == 0 then m
    else Mapped(m, gpa, user, host, n - 1)[PageOf(gpa + 4096 * (n - 1)) := host(user + 4096 * (n - 1))]
  }

  /** Pages of a region of `size` bytes: the loop also takes a last partial page. */
  function PagesIn(size: nat): nat {
    (size + 4095) / 4096
  }

  /** How many leading pages have a physical address. */
  function Leading(user: nat, host: nat -> nat, n: nat): (k: nat)
    ensures k <= n
  {
    if n == 0 then 0
    else
      var k := Leading(user, host, n - 1);
      if k == n - 1 && host(user + 4096 * k) != 0 then n else k
  }

  /** The pages before it are found, and it is the first that is not. */
  lemma {:induction false} LeadingIs(user: nat, host: nat -> nat, n: nat)
    ensures var k := Leading(user, host, n);
            && (forall i: nat | i < k :: Found(user, host, i))
            && (k < n ==> !Found(user, host, k))
  {
    if n > 0 {
      LeadingIs(user, host, n - 1);
    }
  }

  predicate Found(user: nat, host: nat -> nat, i: nat) {
    host(user + 4096 * i) != 0
  }

  lemma LeadingAll(user: nat, host: nat -> nat, n: nat)
    ensures Leading(user, host, 0) == 0
    ensures Leading(user, host, n) == n && host(user + 4096 * n) != 0 ==> Leading(user, host, n + 1) == n + 1
  {
  }

  lemma {:induction false} LeadingStops(user: nat, host: nat -> nat, n: nat, m: nat)
    requires n < m && Leading(user, host, n) == n
    ensures host(user + 4096 * n) == 0 ==> Leading(user, host, m) == n
    ensures host(user + 4096 * n) != 0 ==> Leading(user, host, m) > n
    decreases m
  {
    if n + 1 < m {
      LeadingStops(user, host, n, m - 1);
    }
  }

  lemma MappedStep(m: map<nat, nat>, gpa: nat, user: nat, host: nat -> nat, n: nat)
    ensures Mapped(m, gpa, user, host, 0) == m
    ensures var k := n - 1;
            n > 0 ==>
              Mapped(m, gpa, user, host, n)
              == Mapped(m, gpa, user, host, k)[PageOf(gpa + 4096 * k) := host(user + 4096 * k)]
  {
  }

  /** A region of one page that is found. */
  lemma OnePage(m: map<nat, nat>, gpa: nat, user: nat, host: nat -> nat)
    requires host(user) != 0
    ensures PagesIn(4096) == 1 && Leading(user, host, 1) == 1 && Ends(4096, user, host)
    ensures Mapped(m, gpa, user, host, 1) == m[PageOf(gpa) := host(user)]
  {
    hide PageOf, Leading;
    LeadingAll(user, host, 0);
    MappedStep(m, gpa, user, host, 1);
  }

  lemma Rejected(m: map<nat, nat>, p: nat, frames: nat)
    ensures p in m && m[p] == 0x5008 ==> Expected(m, p, frames) == Misconfigured
  {
    hide FrameField;
  }

  // ---------- The 64-bit offset of the region loop ----------

  /** Pages of the whole 64-bit range. */
  const SPAN: nat := 0x10_0000_0000_0000

  /** The loop over a region comes to an end: its size leaves room for the last step of the
      offset, or some page has no physical address. */
  ghost predicate Ends(size: nat, user: nat, host: nat -> nat) {
    size <= WORD - 4096 || Leading(user, host, SPAN) < SPAN
  }

  /** The offset after `k` steps in 64 bits. */
  function Offset(k: nat): nat {
    4096 * k % WORD
  }

  lemma OffsetIs(k: nat)
    ensures Offset(k) == 4096 * (k % SPAN) && Offset(k) <= WORD - 4096
  {
    DivIs(4096 * k, WORD, k / SPAN, 4096 * (k % SPAN));
  }

  lemma NoWrap(size: nat, user: nat, host: nat -> nat, n: nat)
    requires Ends(size, user, host) && 4096 * n < size && Leading(user, host, n) == n
    ensures host(user + 4096 * n) != 0 ==> (4096 * n + PAGE_SIZE) % WORD == 4096 * (n + 1)
  {
    if host(user + 4096 * n) != 0 {
      LeadingAll(user, host, n);
      assert n + 1 < SPAN by {
        LeadingIs(user, host, SPAN);
        LeadingIs(user, host, n + 1);
        var k := Leading(user, host, SPAN);
        assert k < SPAN ==> !Found(user, host, k);
      }
      DivIs(4096 * n + 4096, WORD, 0, 4096 * (n + 1));
    }
  }

  lemma WithinPages(size: nat, n: nat)
    ensures 4096 * n < size <==> n < PagesIn(size)
  {
    var q := PagesIn(size);
    assert 4096 * q <= size + 4095 < 4096 * q + 4096;
  }

  /** The loop makes turn after turn for ever exactly if that condition fails. */
  lemma EndsOrLoops(size: nat, user: nat, host: nat -> nat)
    requires size < WORD
    ensures Ends(size, user, host) <==> !forall k: nat :: Offset(k) < size && host(user + Offset(k)) != 0
  {
    hide Offset, Leading;
    LeadingIs(user, host, SPAN);
    if size <= WORD - 4096 {
      OffsetIs(PagesIn(size));
      assert Offset(PagesIn(size)) >= size;
    } else if Leading(user, host, SPAN) < SPAN {
      OffsetIs(Leading(user, host, SPAN));
      assert host(user + Offset(Leading(user, host, SPAN))) == 0;
    } else {
      forall k: nat
        ensures Offset(k) < size && host(user + Offset(k)) != 0
      {
        OffsetIs(k);
        assert Found(user, host, k % SPAN);
      }
    }
  }

  /** A region of 2^64 - 1 bytes all of whose pages are found is gone through for ever. */
  lemma LoopsForEver(user: nat) returns (host: nat -> nat)
    ensures !Ends(WORD - 1, user, host) && forall k: nat :: Offset(k) < WORD - 1 && host(user + Offset(k)) != 0
  {
    hide Offset, Leading;
    host := a => 0x1000;
    EndsOrLoops(WORD - 1, user, host);
    forall k: nat
      ensures Offset(k) < WORD - 1 && host(user + Offset(k)) != 0
    {
      OffsetIs(k);
    }
  }

  /** The entry of every page after mapping a region that does not wrap around bit 48:
      a page of the region gets its own host page, any other keeps what it had. */
  lemma {:induction false} MappedAt(m: map<nat, nat>, gpa: nat, user: nat, host: nat -> nat, n: nat, p: nat)
    requires gpa % 4096 == 0 && gpa / 4096 + n <= PAGES && p < PAGES
    ensures var first, after := gpa / 4096, Mapped(m, gpa, user, host, n);
            if first <= p < first + n
            then p in after && after[p] == host(user + 4096 * (p - first))
            else (p in after <==> p in m) && (p in m ==> after[p] == m[p])
  {
    if n > 0 {
      MappedAt(m, gpa, user, host, n - 1, p);
      PageOfSum(gpa / 4096, n - 1);
    }
  }

  lemma PageOfSum(q: nat, k: nat)
    requires q + k < PAGES
    ensures PageOf(4096 * q + 4096 * k) == q + k
  {
    assert (4096 * q + 4096 * k) / 4096 == q + k;
  }

  /** `off += PAGE_SIZE` in 64 bits. */
  method NextOffset(size: nat, ghost user: nat, ghost host: nat -> nat, off: nat, ghost n: nat) returns (next: nat)
    requires Ends(size, user, host) && off == 4096 * n && off < size && Leading(user, host, n) == n
    requires host(user + off) != 0
    ensures next == 4096 * (n + 1) && n + 1 <= PagesIn(size) && (next < size <==> n + 1 < PagesIn(size))
  {
    NoWrap(size, user, host, n);
    WithinPages(size, n);
    WithinPages(size, n + 1);
    next := (off + PAGE_SIZE) % WORD;
  }

  class Tables {
    var pml4: nat
    /** The blocks in use. A block leaves the map when it is freed. */
    var heap: Blocks
    /** Physical page of every block the allocator gave: `__pa(p)` is `4096 * phys[p]`. */
    var phys: map<nat, nat>
    /** What the allocator will answer from now on. */
    var pool: seq<Frame>

    /** The same memory, with where each table lives. */
    ghost var tree: Memory
    /** The abstract value: page number to the physical address last given for it. */
    ghost var mapped: map<nat, nat>

    /** The ghost copy mirrors the real memory. */
    ghost predicate Mirrored()
      reads this
    {
      heap == tree.heap && phys == tree.phys && pool == tree.pool
    }

    ghost predicate Valid()
      reads this
    {
      && Mirrored() && Sound(tree, mapped) && Tight(tree, mapped)
      && tree.at[ROOT] == pml4
    }

    /** `ept_init` */
    constructor (answers: seq<Frame>)
      requires |answers| >= 1 && Fresh(answers, map[], map[])
      ensures Valid() && mapped == map[] && pool == answers[1..]
    {
      pml4 := answers[0].va;
      heap := map[answers[0].va := Zeroes(1024)];
      phys := map[answers[0].va := answers[0].frame];
      pool := answers[1..];
      tree := Memory(heap, phys, map[answers[0].frame := answers[0].va], pool,
                     map[ROOT := answers[0].va], map[answers[0].va := ROOT]);
      mapped := map[];
    }

    /** `ept_translate` */
    method Translate(gpa: nat) returns (r: nat)
      requires Valid()
      ensures r == if PageOf(gpa) in mapped then PageBase(mapped[PageOf(gpa)]) else 0
    {
      ghost var s, p := tree, PageOf(gpa);
      IndexFollowsPath(gpa, 4);
      assert Link(s, ROOT, Index(gpa, 4));
      var pdpt := heap[pml4][PAGE_OFFSET + Index(gpa, 4)];
      if pdpt == 0 {
        NoPath(s, p, 3);
        return 0;
      }
      IndexFollowsPath(gpa, 3);
      assert Link(s, TableOf(p, 3), Index(gpa, 3));
      var pd := heap[pdpt][PAGE_OFFSET + Index(gpa, 3)];
      if pd == 0 {
        NoPath(s, p, 2);
        return 0;
      }
      IndexFollowsPath(gpa, 2);
      assert Link(s, TableOf(p, 2), Index(gpa, 2));
      var pt := heap[pd][PAGE_OFFSET + Index(gpa, 2)];
      if pt == 0 {
        return 0;
      }
      IndexFollowsPath(gpa, 1);
      assert Holds(s, mapped, TableOf(p, 1), Index(gpa, 1));
      if p in mapped {
        LeafWordFields(mapped[p]);
      }
      return PageBase(heap[pt][Index(gpa, 1)]);
    }

    /** The processor, walking the words of `heap` from the EPT pointer, finds the leaf entry of
        a mapped page or, if bit 3 of its address is set or the address is out of its range, a
        misconfiguration; and it takes a violation on any other page. There is one leaf table
        for each value of address bits 21-47 that is mapped. */
    lemma HardwareSees(gpa: nat, frames: nat)
      requires Valid() && Addressable(phys, frames)
      ensures pml4 in phys
      ensures HardwareTranslate(tree, 4096 * phys[pml4] + 0x18, gpa, frames) == Expected(mapped, PageOf(gpa), frames)
      ensures |LeafBlocks(tree)| == |LeafKeys(mapped)|
    {
      hide HardwareTranslate, Expected, LeafBlocks, LeafKeys, Tight;
      HardwareAgrees(tree, mapped, gpa, frames);
      LeafTableCount(tree, mapped);
    }

    /** The three like blocks of `ept_add_page`: the table behind entry `i` of `table`,
        allocated and entered in both halves when there is none. */
    method EnsureTable(table: nat, i: nat, words: nat, ghost n: Node) returns (child: nat)
      requires Mirrored() && Ready(tree, n, i) && tree.at[n] == table && words == WordsOf(n.level - 1)
      modifies this`heap, this`phys, this`pool, this`tree
      ensures Mirrored() && tree == Filled(old(tree), n, i)
      ensures Child(n, i) in tree.at && child == tree.at[Child(n, i)]
    {
      child := heap[table][PAGE_OFFSET + i];
      if child == 0 {
        child := pool[0].va;
        heap := heap[child := Zeroes(words)];
        phys := phys[child := pool[0].frame];
        heap := Put(heap, table, PAGE_OFFSET + i, child);
        heap := Put(heap, table, i, UpperWord(phys[child]));
        pool := pool[1..];
        tree := Grown(tree, n, i);
      }
    }

    /** `ept_add_page` */
    method AddPage(gpa: nat, pa: nat)
      requires Valid() && |pool| >= 3
      modifies this`heap, this`phys, this`pool, this`tree, this`mapped
      ensures Valid() && |pool| >= old(|pool|) - 3
      ensures mapped == old(mapped)[PageOf(gpa) := pa]
    {
      hide Sound, Tight, Descended, Added, Filled, Ready, PageOf, Index, LeafWord;
      ghost var s, p := tree, PageOf(gpa);
      DescendedStep(s, mapped, gpa, 3);
      DescendedStep(s, mapped, gpa, 2);
      DescendedStep(s, mapped, gpa, 1);
      AddedTight(s, mapped, gpa, pa);
      AddedIs(s, mapped, gpa, pa);
      var pdpt := EnsureTable(pml4, Index(gpa, 4), 1024, ROOT);
      var pd := EnsureTable(pdpt, Index(gpa, 3), 1024, TableOf(p, 3));
      var pt := EnsureTable(pd, Index(gpa, 2), 512, TableOf(p, 2));
      heap := Put(heap, pt, Index(gpa, 1), LeafWord(pa));
      mapped := mapped[p := pa];
      tree := Added(s, old(mapped), gpa, pa);
    }

    /** One turn of the region loop for a page that was found: the map grows, the offset moves on. */
    method MapOne(gpa: nat, size: nat, ghost user: nat, ghost host: nat -> nat, off: nat, pa: nat,
                  ghost n: nat, ghost before: map<nat, nat>) returns (next: nat)
      requires Valid() && |pool| >= 3 && Ends(size, user, host) && pa == host(user + off) != 0
      requires off == 4096 * n && off < size && Leading(user, host, n) == n
      requires mapped == Mapped(before, gpa, user, host, n)
      modifies this`heap, this`phys, this`pool, this`tree, this`mapped
      ensures Valid() && |pool| >= old(|pool|) - 3 && next == 4096 * (n + 1)
      ensures n + 1 <= PagesIn(size) && (next < size <==> n + 1 < PagesIn(size))
      ensures Leading(user, host, n + 1) == n + 1 && mapped == Mapped(before, gpa, user, host, n + 1)
    {
      hide Valid, PageOf, Leading, Mapped, Ends, PagesIn;
      AddPage(gpa + off, pa);
      LeadingAll(user, host, n);
      MappedStep(before, gpa, user, host, n + 1);
      next := NextOffset(size, user, host, off, n);
    }

    /** `kvm_set_user_memory_region`; `wired` is the outcome of wiring the user pages and
        `host` the physical address found for a user address, 0 when there is none. */
    method SetUserMemoryRegion(gpa: nat, size: nat, user: nat, wired: bool, host: nat -> nat) returns (ret: nat)
      requires Valid() && |pool| >= 3 * PagesIn(size) && Ends(size, user, host)
      modifies this`heap, this`phys, this`pool, this`tree, this`mapped
      ensures Valid() && |pool| >= old(|pool|) - 3 * PagesIn(size)
      ensures ret == 0 || ret == EINVAL
      ensures ret == 0 <==> wired && Leading(user, host, PagesIn(size)) == PagesIn(size)
      ensures mapped == Mapped(old(mapped), gpa, user, host, if wired then Leading(user, host, PagesIn(size)) else 0)
    {
      hide Valid, PageOf, Leading, Mapped, Ends, PagesIn;
      ghost var total := PagesIn(size);
      MappedStep(mapped, gpa, user, host, 0);
      if !wired {
        return EINVAL;
      }
      LeadingAll(user, host, 0);
      WithinPages(size, 0);
      var off := 0;
      ghost var n: nat := 0;
      while off < size
        invariant off == 4096 * n && n <= total && (off < size <==> n < total)
        invariant Valid() && |pool| >= old(|pool|) - 3 * n
        invariant Leading(user, host, n) == n && mapped == Mapped(old(mapped), gpa, user, host, n)
        decreases total - n
      {
        LeadingStops(user, host, n, total);
        var pa := host(user + off);
        if pa == 0 {
          return EINVAL;
        }
        off := MapOne(gpa, size, user, host, off, pa, n, old(mapped));
        n := n + 1;
      }
      return 0;
    }

    /** A region whose host pages are not aligned to 16 bytes: its first page is mapped, and the
        processor cannot use it. */
    method Misaligned(gpa: nat, ghost frames: nat)
      requires Valid() && |pool| >= 3
      modifies this`heap, this`phys, this`pool, this`tree, this`mapped
      ensures Valid() && mapped == old(mapped)[PageOf(gpa) := 0x5008]
      ensures Addressable(phys, frames) ==>
                pml4 in phys && HardwareTranslate(tree, 4096 * phys[pml4] + 0x18, gpa, frames) == Misconfigured
    {
      hide Valid, HardwareTranslate, Expected, PageOf, Leading, Mapped, Ends, PagesIn, Addressable;
      var host := (a: nat) => 0x5000 + a;
      OnePage(mapped, gpa, 0x8, host);
      var ret := SetUserMemoryRegion(gpa, 4096, 0x8, true, host);
      Rejected(mapped, PageOf(gpa), frames);
      if Addressable(phys, frames) {
        HardwareSees(gpa, frames);
      }
    }

    /** `IOFree(p, bytes)`: the block must be in use, and of that size. */
    method Release(p: nat, bytes: nat)
      requires p in heap && 8 * |heap[p]| == bytes
      modifies this`heap
      ensures heap == old(heap) - {p}
    {
      heap := heap - {p};
    }

    /** The inner loop of `ept_free`, and the release of the directory it went through. */
    method FreeDirectory(pd: nat, ghost n: Node, ghost a: nat)
      requires Tree(tree, mapped) && n in tree.at && n.level == 2 && tree.at[n] == pd
      requires BeforeDirectory(tree, heap, a, n.key)
      modifies this`heap
      ensures BeforeDirectory(tree, heap, a, n.key + 1)
    {
      hide Tree, Placed, Left;
      PlacedTree(tree, mapped);
      for k := 0 to PAGE_OFFSET
        invariant InDirectory(tree, heap, a, n, k)
      {
        DirectoryStep(tree, mapped, heap, a, n, k);
        var pt := heap[pd][PAGE_OFFSET + k];
        if pt == 0 {
          continue;
        }
        Release(pt, PAGE_SIZE);
      }
      DirectoryDone(tree, mapped, heap, a, n);
      Release(pd, 2 * PAGE_SIZE);
    }

    /** The middle loop, likewise. */
    method FreePointers(pdpt: nat, ghost n: Node)
      requires Tree(tree, mapped) && n in tree.at && n.level == 3 && tree.at[n] == pdpt
      requires BeforePointers(tree, heap, n.key)
      modifies this`heap
      ensures BeforePointers(tree, heap, n.key + 1)
    {
      hide Tree, Placed, BeforeDirectory;
      PlacedTree(tree, mapped);
      for j := 0 to PAGE_OFFSET
        invariant InPointers(tree, heap, n, j)
      {
        PointersStep(tree, mapped, heap, n, j);
        var pd := heap[pdpt][PAGE_OFFSET + j];
        if pd == 0 {
          continue;
        }
        FreeDirectory(pd, Child(n, j), n.key);
      }
      PointersDone(tree, mapped, heap, n);
      Release(pdpt, 2 * PAGE_SIZE);
    }

    /** `ept_free` */
    method Free()
      requires Valid()
      modifies this`heap
      ensures heap == map[]
    {
      hide Sound, Tree, Tight, Placed, BeforePointers;
      FreeStart(tree, mapped);
      for i := 0 to PAGE_OFFSET
        invariant BeforePointers(tree, heap, i)
      {
        RootStep(tree, mapped, heap, i);
        var pdpt := heap[pml4][PAGE_OFFSET + i];
        if pdpt == 0 {
          continue;
        }
        FreePointers(pdpt, Node(3, i));
      }
      RootDone(tree, mapped, heap);
      Release(pml4, 2 * PAGE_SIZE);
    }
  }
}
