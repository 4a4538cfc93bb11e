/** How the memory manager's operations add up: the identity map, the pages a mapping needs,
    and which data pages belong to which live allocation. */
module GuestHeap {
  import opened Radix
  import opened GuestTables
  import opened GuestNeed

  // ---------- free_memory ----------

  /** `free_memory` handing over one page. */
  function Given(s: State, f: nat, words: seq<nat>): State
    requires |words| == 512
  {
    s.(heap := Put(s.heap[f := words], f, 0, Below(s.stack, |s.stack|)),
       stack := s.stack + [f],
       role := s.role[f := Free(|s.stack|)])
  }

  lemma GivenPartition(s: State, f: nat, words: seq<nat>)
    requires Partition(s) && |words| == 512 && f !in s.role && 0 < f < FRAMES
    ensures Partition(Given(s, f, words))
  {
  }

  lemma GivenChained(s: State, f: nat, words: seq<nat>)
    requires Partition(s) && Chained(s) && |words| == 512 && f !in s.role && 0 < f < FRAMES
    ensures Partition(Given(s, f, words)) && Chained(Given(s, f, words))
  {
    GivenPartition(s, f, words);
  }

  lemma GivenSound(s: State, f: nat, words: seq<nat>)
    requires Sound(s) && |words| == 512 && f !in s.role && 0 < f < FRAMES
    ensures Sound(Given(s, f, words))
  {
    GivenChained(s, f, words);
    SameTables(s, Given(s, f, words));
  }

  // ---------- The root table ----------

  function RootTaken(s: State): State
    requires s.stack != []
  {
    var f := Head(s);
    s.(heap := s.heap[f := Zeroes(512)],
       stack := s.stack[..|s.stack| - 1],
       at := s.at[ROOT := f],
       role := s.role[f := Table(ROOT)])
  }

  lemma RootTakenSound(s: State)
    requires Sound(s) && s.stack != [] && s.at == map[]
    ensures Sound(RootTaken(s)) && Head(s) < FRAMES
  {
    RootTakenPartition(s);
    RootTakenChained(s);
    RootTakenWritten(s);
  }

  lemma RootTakenChained(s: State)
    requires Partition(s) && Chained(s) && s.stack != [] && Partition(RootTaken(s))
    ensures Chained(RootTaken(s))
  {
    hide Used;
  }

  lemma RootTakenWritten(s: State)
    requires Partition(s) && Closed(s) && s.stack != [] && s.at == map[] && Partition(RootTaken(s))
    ensures Written(RootTaken(s)) && Closed(RootTaken(s))
  {
    hide Used, IsLarge;
    var t := RootTaken(s);
    forall n, i | n in t.at && 0 <= i < 512
      ensures t.heap[t.at[n]][i] == Word(t, n, i)
    {
      ParentOfChild(n, i);
    }
  }

  lemma RootTakenRest(s: State)
    requires Sound(s) && s.stack != []
    ensures RootTaken(s).data == s.data && SamePages(s, RootTaken(s))
  {
    hide Chained, Written, Closed, Used;
  }

  lemma RootTakenPartition(s: State)
    requires Partition(s) && s.stack != [] && s.at == map[]
    ensures Partition(RootTaken(s))
  {
    var t := RootTaken(s);
    forall f | f in t.role
      ensures 0 < f < FRAMES && |t.heap[f]| == 512 && Used(t, f)
    {
      assert Used(s, f);
    }
  }

  // ---------- The identity map ----------

  /** The entry `setup_mmu` installs for page `q` when `n` whole pages fit below its limit. */
  function IdentityPte(q: nat, n: nat): nat {
    if q < 512 * (n / 512) then 0x20_0000 * (q / 512) + 0x83
    else if q < n then Pte(q)
    else 0
  }

  /** The physical address the processor forms from an entry (section 4.5 of the Intel SDM, volume 3A). */
  function Physical(pte: nat, a: nat): nat {
    if IsLarge(pte) then 0x20_0000 * (pte / 0x20_0000 % 0x8000_0000) + a % 0x20_0000
    else 4096 * (pte / 4096 % FRAMES) + a % 4096
  }

  lemma LargeEntry(k: nat)
    requires k < 0x800_0000
    ensures IsLarge(0x20_0000 * k + 0x83) && (0x20_0000 * k + 0x83) / 0x20_0000 == k
  {
    var w := 0x20_0000 * k + 0x83;
    DivIs(w, 0x20_0000, k, 0x83);
    DivIs(w, 128, 0x4000 * k + 1, 3);
    DivIs(w, 2, 0x10_0000 * k + 0x41, 1);
    DivIs(0x4000 * k + 1, 2, 0x2000 * k, 1);
  }

  lemma SmallEntry(q: nat)
    requires q < PAGES
    ensures !IsLarge(Pte(q)) && Pte(q) / 4096 == q
  {
    DivIs(Pte(q), 128, 32 * q, 3);
    DivIs(Pte(q), 4096, q, 3);
  }

  /** Below the limit every address translates to itself. */
  lemma IdentityTranslates(a: nat, n: nat)
    requires a / 4096 < n <= PAGES
    ensures Physical(IdentityPte(a / 4096, n), a) == a
  {
    var q := a / 4096;
    if q < 512 * (n / 512) {
      assert q / 512 == a / 0x20_0000;
      LargeEntry(q / 512);
    } else {
      SmallEntry(q);
    }
  }

  /** Pages below `upto` carry their identity entry, and no other page is mapped. */
  ghost predicate IdentityUpTo(s: State, upto: nat, n: nat) {
    forall q: nat :: Lookup(s, q) == if q < upto then IdentityPte(q, n) else 0
  }

  /** Before the k-th turn of the first loop of `setup_mmu`: enough pages are left for both loops. */
  ghost predicate LargePhase(s: State, n: nat, k: nat) {
    && n <= PAGES && k <= n / 512 && ROOT in s.at && IdentityUpTo(s, 512 * k, n)
    && (forall m | m in s.at :: m.level != 1)
    && |s.stack| >= Need(s.at.Keys, 512 * k, n / 512 - k, 2)
                  + Need(After(s.at.Keys, 512 * k, n / 512 - k, 2), 512 * (n / 512), n % 512, 1)
  }

  /** Before the j-th turn of the second loop. */
  ghost predicate SmallPhase(s: State, n: nat, j: nat) {
    && n <= PAGES && j <= n % 512 && ROOT in s.at && IdentityUpTo(s, 512 * (n / 512) + j, n)
    && (forall k | k in s.large :: k < n / 512)
    && |s.stack| >= Need(s.at.Keys, 512 * (n / 512) + j, n % 512 - j, 1)
  }

  /** The phases begin once the root is there. */
  lemma FirstPhase(s: State, n: nat)
    requires Sound(s) && n <= PAGES && s.at == map[] && s.small == map[] && s.large == map[]
    requires |s.stack| >= TablesFor(n)
    ensures s.stack != [] && Sound(RootTaken(s)) && LargePhase(RootTaken(s), n, 0) && Head(s) < FRAMES
    ensures SamePages(s, RootTaken(s))
  {
    hide Sound;
    RootTakenSound(s);
    TablesForIs(n);
    RootTakenRest(s);
    assert RootTaken(s).at.Keys == {ROOT};
  }

  lemma PageOfLow(q: nat)
    requires q < PAGES
    ensures PageOf(4096 * q) == q
  {
    DivIs(4096 * q, 4096, q, 0);
  }

  lemma LargeTurn(s: State, n: nat, k: nat)
    requires Sound(s) && LargePhase(s, n, k) && k < n / 512
    ensures Buildable(s, PageOf(4096 * (512 * k)), 2)
    ensures LargePhase(Installed(s, 4096 * (512 * k), 2, 0x20_0000 * k + 0x83), n, k + 1)
    ensures SamePages(s, Installed(s, 4096 * (512 * k), 2, 0x20_0000 * k + 0x83))
    ensures Installed(s, 4096 * (512 * k), 2, 0x20_0000 * k + 0x83).data == s.data
  {
    hide Sound, Installed, PageOf;
    var p, pte := 512 * k, 0x20_0000 * k + 0x83;
    PageOfLow(p);
    var t := Installed(s, 4096 * p, 2, pte);
    InstalledTook(s, 4096 * p, 2, pte);
    InstalledPages(s, 4096 * p, 2, pte);
    InstalledSets(s, 4096 * p, 2, pte);
    LargeTurnView(s, t, n, k);
    LargeTurnTables(s, t, n, k);
  }

  lemma LargeTurnView(s: State, t: State, n: nat, k: nat)
    requires k < n / 512 && IdentityUpTo(s, 512 * k, n) && EntrySet(s, t, 512 * k, 2, 0x20_0000 * k + 0x83)
    ensures IdentityUpTo(t, 512 * (k + 1), n)
  {
    hide Lookup;
    forall q: nat
      ensures Lookup(t, q) == if q < 512 * (k + 1) then IdentityPte(q, n) else 0
    {
      KeyOfPage(q);
      KeyOfPage(512 * k);
    }
  }

  lemma KeyOfPage(q: nat)
    ensures Key(q, 1) == q / 512
  {
    assert Key(q, 1) == Key(q, 0) / 512;
  }

  lemma LargeTurnTables(s: State, t: State, n: nat, k: nat)
    requires LargePhase(s, n, k) && k < n / 512 && Took(s, t, 512 * k, 2)
    ensures ROOT in t.at && (forall m | m in t.at :: m.level != 1)
    ensures |t.stack| >= Need(t.at.Keys, 512 * (k + 1), n / 512 - (k + 1), 2)
                  + Need(After(t.at.Keys, 512 * (k + 1), n / 512 - (k + 1), 2), 512 * (n / 512), n % 512, 1)
  {
    hide IdentityUpTo;
    assert t.at.Keys == s.at.Keys + Path(512 * k, 2);
    assert 512 * k + Step(2) == 512 * (k + 1);
    assert n / 512 - (k + 1) == n / 512 - k - 1;
  }

  lemma LargeIsMapped(s: State, k: nat)
    requires Sound(s) && k in s.large
    ensures Lookup(s, 512 * k) != 0
  {
    hide Sound, Key;
    KeyOfPage(512 * k);
    DivIs(512 * k, 512, k, 0);
    LargePresent(s, k);
  }

  lemma LargePresent(s: State, k: nat)
    requires Sound(s) && k in s.large
    ensures s.large[k] != 0
  {
  }

  lemma WholeLarge(len: nat, k: nat)
    ensures 0x20_0000 * k + 0x20_0000 <= len <==> k < len / 4096 / 512
  {
    var n, r := len / 4096, len % 4096;
    assert len == 4096 * n + r;
    var m, s := n / 512, n % 512;
    assert n == 512 * m + s;
  }

  lemma WholeSmall(len: nat, p: nat)
    ensures 4096 * p + 4096 <= len <==> p < len / 4096
  {
  }

  lemma SamePagesSelf(s: State)
    ensures SamePages(s, s)
  {
  }

  lemma SamePagesMore(s: State, t: State, u: State)
    requires SamePages(s, t) && SamePages(t, u)
    ensures SamePages(s, u)
  {
  }

  lemma NoneLostStays(s: State, t: State)
    requires SamePages(s, t) && NoneLost(s)
    ensures NoneLost(t) && t.role.Keys == s.role.Keys
  {
  }

  /** In the end the identity map is complete, and nothing has been allocated. */
  lemma PhasesEnd(s: State, n: nat)
    requires SmallPhase(s, n, n % 512) && s.data == map[] && NoneLost(s)
    ensures IdentityUpTo(s, n, n) && Steady(s, map[], map[], 0, n)
  {
    assert 512 * (n / 512) + n % 512 == n;
    hide Lookup;
    assert forall q: nat :: q >= n ==> IdentityPte(q, n) == 0;
  }

  /** The first loop ends where the second begins. */
  lemma PhasesMeet(s: State, n: nat)
    requires Sound(s) && LargePhase(s, n, n / 512)
    ensures SmallPhase(s, n, 0)
  {
    hide Sound, Lookup;
    forall k | k in s.large
      ensures k < n / 512
    {
      LargeIsMapped(s, k);
    }
  }

  lemma SmallTurn(s: State, n: nat, j: nat, p: nat)
    requires Sound(s) && SmallPhase(s, n, j) && j < n % 512 && p == 512 * (n / 512) + j
    ensures Buildable(s, PageOf(4096 * p), 1)
    ensures SmallPhase(Installed(s, 4096 * p, 1, Pte(p)), n, j + 1)
    ensures SamePages(s, Installed(s, 4096 * p, 1, Pte(p))) && Installed(s, 4096 * p, 1, Pte(p)).data == s.data
  {
    hide Sound, Installed, PageOf;
    PageOfLow(p);
    KeyOfPage(p);
    var t := Installed(s, 4096 * p, 1, Pte(p));
    InstalledTook(s, 4096 * p, 1, Pte(p));
    InstalledPages(s, 4096 * p, 1, Pte(p));
    InstalledSets(s, 4096 * p, 1, Pte(p));
    SmallTurnView(s, t, n, p);
    SmallTurnTables(s, t, n, j);
  }

  lemma SmallTurnView(s: State, t: State, n: nat, p: nat)
    requires 512 * (n / 512) <= p < n && IdentityUpTo(s, p, n) && EntrySet(s, t, p, 1, Pte(p))
    ensures IdentityUpTo(t, p + 1, n)
  {
    hide Lookup;
    forall q: nat
      ensures Lookup(t, q) == if q < p + 1 then IdentityPte(q, n) else 0
    {
    }
  }

  lemma SmallTurnTables(s: State, t: State, n: nat, j: nat)
    requires SmallPhase(s, n, j) && j < n % 512 && Took(s, t, 512 * (n / 512) + j, 1)
    ensures ROOT in t.at
    ensures |t.stack| >= Need(t.at.Keys, 512 * (n / 512) + (j + 1), n % 512 - (j + 1), 1)
  {
    hide IdentityUpTo;
    var p := 512 * (n / 512) + j;
    assert t.at.Keys == s.at.Keys + Path(p, 1);
    assert p + Step(1) == 512 * (n / 512) + (j + 1);
    assert n % 512 - (j + 1) == n % 512 - j - 1;
  }

  // ---------- Live allocations ----------

  /** Every data page belongs to one live allocation (`blocks`: first page to number of pages;
      `owner`: page to first page), or to the range `lo..hi` being built or torn down; its
      virtual page maps it, and the first word of an allocation holds its size in bytes. */
  ghost predicate Live(s: State, blocks: map<nat, nat>, owner: map<nat, nat>, lo: nat, hi: nat) {
    && (forall v | v in s.data :: Lookup(s, v) == Pte(s.data[v]) && Owned(blocks, owner, lo, hi, v))
    && (forall a, v: nat | InBlock(blocks, a, v) :: v in s.data && v in owner && owner[v] == a && !(lo <= v < hi))
    && (forall v | lo <= v < hi :: v in s.data)
    && (forall a | a in blocks :: blocks[a] > 0 && Headed(s, a, blocks[a]))
  }

  ghost predicate InBlock(blocks: map<nat, nat>, a: nat, v: nat) {
    a in blocks && a <= v < a + blocks[a]
  }

  ghost predicate Owned(blocks: map<nat, nat>, owner: map<nat, nat>, lo: nat, hi: nat, v: nat) {
    || lo <= v < hi
    || (v in owner && InBlock(blocks, owner[v], v))
  }

  ghost predicate Headed(s: State, a: nat, n: nat) {
    a in s.data && s.data[a] in s.heap && |s.heap[s.data[a]]| == 512 && s.heap[s.data[a]][0] == 4096 * n
  }

  /** Enough free pages for `n` more data pages from virtual page `v` on, and their tables. */
  ghost predicate Enough(s: State, v: nat, n: nat) {
    |s.stack| >= n + Need(s.at.Keys, v, n, 1)
  }

  /** Everything below `top` is as `setup_mmu` left it, and no large page reaches higher. */
  ghost predicate IdentityBelow(s: State, top: nat, n: nat) {
    && n <= top <= PAGES && ROOT in s.at
    && (forall q | 0 <= q < top :: Lookup(s, q) == IdentityPte(q, n))
    && (forall k | k in s.large :: k < n / 512)
  }

  /** What one turn of the loop of `vmalloc` does for virtual page `v`: the head of the free
      list becomes its page, then it is mapped. */
  ghost function Attached(s: State, virt: nat): State
    requires s.stack != []
  {
    Installed(Taken(s, PageOf(virt)), virt, 1, Pte(Head(s)))
  }

  lemma AttachedBuildable(s: State, v: nat, n: nat, top: nat, id: nat)
    requires IdentityBelow(s, top, id) && top <= v < PAGES && n > 0 && Enough(s, v, n)
    ensures s.stack != [] && Buildable(Taken(s, v), v, 1)
  {
    KeyOfPage(v);
  }

  lemma AttachedSound(s: State, virt: nat, n: nat, top: nat, id: nat)
    requires Sound(s) && IdentityBelow(s, top, id) && top <= PageOf(virt) && n > 0 && Enough(s, PageOf(virt), n)
    requires PageOf(virt) !in s.data
    ensures s.stack != [] && Sound(Attached(s, virt))
    ensures EntrySet(s, Attached(s, virt), PageOf(virt), 1, Pte(Head(s)))
    ensures SameData(Taken(s, PageOf(virt)), Attached(s, virt))
    ensures SamePages(Taken(s, PageOf(virt)), Attached(s, virt))
    ensures Took(Taken(s, PageOf(virt)), Attached(s, virt), PageOf(virt), 1)
  {
    hide Sound, IdentityBelow, Enough, PageOf, Installed, SameData, SamePages, Took, Buildable;
    var v := PageOf(virt);
    AttachedBuildable(s, v, n, top, id);
    TakenSound(s, v);
    InstalledSound(Taken(s, v), virt, 1, Pte(Head(s)));
    InstalledSets(Taken(s, v), virt, 1, Pte(Head(s)));
    InstalledTook(Taken(s, v), virt, 1, Pte(Head(s)));
    InstalledPages(Taken(s, v), virt, 1, Pte(Head(s)));
    InstalledData(Taken(s, v), virt, Pte(Head(s)));
    TakenView(s, Attached(s, virt), v, Pte(Head(s)));
  }

  lemma TakenView(s: State, t: State, v: nat, pte: nat)
    requires s.stack != [] && EntrySet(Taken(s, v), t, v, 1, pte)
    ensures EntrySet(s, t, v, 1, pte)
  {
    assert forall q: nat :: Lookup(Taken(s, v), q) == Lookup(s, q);
  }

  /** The pages that are needed shrink by those that were used. */
  lemma AttachedEnough(s: State, t: State, v: nat, n: nat)
    requires n > 0 && s.stack != [] && Enough(s, v, n) && Took(Taken(s, v), t, v, 1)
    ensures Enough(t, v + 1, n - 1)
  {
    assert t.at.Keys == s.at.Keys + Path(v, 1);
    assert v + Step(1) == v + 1;
  }

  lemma AttachedIdentity(s: State, t: State, v: nat, pte: nat, top: nat, id: nat)
    requires IdentityBelow(s, top, id) && top <= v && EntrySet(s, t, v, 1, pte) && s.stack != []
    requires Took(Taken(s, v), t, v, 1)
    ensures IdentityBelow(t, top, id)
  {
    hide Lookup;
  }

  lemma AttachedData(s: State, t: State, v: nat)
    requires s.stack != [] && v !in s.data && SameData(Taken(s, v), t)
    ensures t.data == s.data[v := Head(s)]
    ensures forall u | u in s.data ::
              s.data[u] in s.heap && s.data[u] in t.heap && t.heap[s.data[u]] == s.heap[s.data[u]]
  {
    forall u | u in s.data
      ensures s.data[u] in s.heap && s.data[u] in t.heap && t.heap[s.data[u]] == s.heap[s.data[u]]
    {
      assert u in Taken(s, v).data;
    }
  }

  lemma AttachedView(s: State, t: State, v: nat, pte: nat, u: nat)
    requires EntrySet(s, t, v, 1, pte)
    ensures Lookup(t, u) == if u == v then pte else Lookup(s, u)
  {
    hide Lookup;
  }

  lemma AttachedLive(s: State, t: State, blocks: map<nat, nat>, owner: map<nat, nat>, lo: nat, v: nat)
    requires Live(s, blocks, owner, lo, v) && lo <= v && v !in s.data && s.stack != []
    requires EntrySet(s, t, v, 1, Pte(Head(s))) && SameData(Taken(s, v), t)
    ensures Live(t, blocks, owner, lo, v + 1)
  {
    hide Lookup, EntrySet, SameData, Taken, Pte;
    AttachedData(s, t, v);
    forall u | u in t.data
      ensures Lookup(t, u) == Pte(t.data[u]) && Owned(blocks, owner, lo, v + 1, u)
    {
      AttachedView(s, t, v, Pte(Head(s)), u);
      assert u != v ==> Owned(blocks, owner, lo, v, u);
    }
    forall a | a in blocks
      ensures blocks[a] > 0 && Headed(t, a, blocks[a])
    {
      assert Headed(s, a, blocks[a]);
    }
  }

  /** The pages `lo` to `lo + n` now belong to the allocation at `lo`. */
  ghost function Claimed(owner: map<nat, nat>, lo: nat, n: nat): (r: map<nat, nat>)
    ensures forall v: nat :: v in r <==> v in owner || lo <= v < lo + n
    ensures forall v | v in r :: r[v] == if lo <= v < lo + n then lo else owner[v]
  {
    if n == 0 then owner else Claimed(owner, lo, n - 1)[lo + n - 1 := lo]
  }

  /** Every page of the new allocation, and of the others, has its owner. */
  lemma ClaimedOwned(blocks: map<nat, nat>, owner: map<nat, nat>, lo: nat, hi: nat, v: nat)
    requires lo < hi && lo !in blocks && Owned(blocks, owner, lo, hi, v)
    requires !(lo <= v < hi) ==> v in owner && InBlock(blocks, owner[v], v)
    ensures Owned(blocks[lo := hi - lo], Claimed(owner, lo, hi - lo), 0, 0, v)
  {
    hide Claimed;
  }

  /** The header of the finished allocation makes it live. */
  lemma HeaderLive(s: State, t: State, blocks: map<nat, nat>, owner: map<nat, nat>, lo: nat, hi: nat)
    requires Sound(s) && Live(s, blocks, owner, lo, hi) && lo < hi && HasData(s, lo)
    requires t == Scribbled(s, lo, 0, 4096 * (hi - lo))
    ensures Live(t, blocks[lo := hi - lo], Claimed(owner, lo, hi - lo), 0, 0)
  {
    hide Lookup, Sound, Headed, Claimed, Scribbled, HasData;
    ScribbledOthers(s, t, blocks, owner, lo, hi);
    ScribbledView(s, t, lo, 0, 4096 * (hi - lo));
    assert !InBlock(blocks, lo, lo);
    var blocks', owner' := blocks[lo := hi - lo], Claimed(owner, lo, hi - lo);
    forall v | v in t.data
      ensures Owned(blocks', owner', 0, 0, v)
    {
      assert Owned(blocks, owner, lo, hi, v);
      ClaimedOwned(blocks, owner, lo, hi, v);
    }
    forall a, v: nat | InBlock(blocks', a, v)
      ensures v in t.data && v in owner' && owner'[v] == a
    {
      assert a != lo ==> InBlock(blocks, a, v);
    }
  }

  ghost predicate HasData(s: State, v: nat) {
    v in s.data && s.data[v] in s.heap && |s.heap[s.data[v]]| == 512
  }

  lemma ScribbledView(s: State, t: State, v: nat, i: nat, w: nat)
    requires HasData(s, v) && i < 512 && t == Scribbled(s, v, i, w)
    ensures t.data == s.data && forall q: nat :: Lookup(t, q) == Lookup(s, q)
  {
  }

  lemma FreedView(s: State, t: State, v: nat)
    requires HasData(s, v) && t == Freed(s, v)
    ensures t.data == s.data - {v} && forall q: nat :: Lookup(t, q) == Lookup(s, q)
  {
  }

  lemma DataDistinct(s: State, u: nat, v: nat)
    requires Sound(s) && u in s.data && v in s.data && u != v
    ensures s.data[u] != s.data[v]
  {
    assert s.role[s.data[u]] == Data(u) && s.role[s.data[v]] == Data(v);
  }

  lemma ScribbledOthers(s: State, t: State, blocks: map<nat, nat>, owner: map<nat, nat>, lo: nat, hi: nat)
    requires Sound(s) && Live(s, blocks, owner, lo, hi) && lo < hi
    requires HasData(s, lo)
    requires t == Scribbled(s, lo, 0, 4096 * (hi - lo))
    ensures Headed(t, lo, hi - lo)
    ensures forall a | a in blocks :: Headed(t, a, blocks[a])
  {
    hide Sound, Lookup, Owned;
    forall a | a in blocks
      ensures Headed(t, a, blocks[a])
    {
      assert Headed(s, a, blocks[a]) && InBlock(blocks, a, a);
      DataDistinct(s, a, lo);
    }
  }

  /** `vfree` starts taking an allocation down. */
  lemma UnderWay(s: State, blocks: map<nat, nat>, owner: map<nat, nat>, a: nat)
    requires Live(s, blocks, owner, 0, 0) && a in blocks
    ensures Live(s, blocks - {a}, owner, a, a + blocks[a])
  {
    hide Lookup, Headed;
    forall v | v in s.data
      ensures Owned(blocks - {a}, owner, a, a + blocks[a], v)
    {
      assert Owned(blocks, owner, 0, 0, v);
    }
    forall v | a <= v < a + blocks[a]
      ensures v in s.data
    {
      assert InBlock(blocks, a, v);
    }
    forall b, v: nat | InBlock(blocks - {a}, b, v)
      ensures v in s.data && v in owner && owner[v] == b && !(a <= v < a + blocks[a])
    {
      assert InBlock(blocks, b, v);
      assert a <= v < a + blocks[a] ==> InBlock(blocks, a, v);
    }
  }

  /** One turn of the loop of `vfree`. */
  lemma FreedLive(s: State, t: State, blocks: map<nat, nat>, owner: map<nat, nat>, lo: nat, hi: nat)
    requires Sound(s) && Live(s, blocks, owner, lo, hi) && lo < hi && HasData(s, lo) && t == Freed(s, lo)
    ensures Live(t, blocks, owner, lo + 1, hi)
  {
    hide Lookup, Sound, Headed, Freed;
    FreedOthers(s, t, blocks, owner, lo, hi);
    FreedView(s, t, lo);
    forall v | v in t.data
      ensures Owned(blocks, owner, lo + 1, hi, v)
    {
      assert Owned(blocks, owner, lo, hi, v);
    }
  }

  lemma FreedOthers(s: State, t: State, blocks: map<nat, nat>, owner: map<nat, nat>, lo: nat, hi: nat)
    requires Sound(s) && Live(s, blocks, owner, lo, hi) && lo < hi
    requires HasData(s, lo)
    requires t == Freed(s, lo)
    ensures forall a | a in blocks :: Headed(t, a, blocks[a])
  {
    hide Sound, Lookup, Owned;
    forall a | a in blocks
      ensures Headed(t, a, blocks[a])
    {
      assert Headed(s, a, blocks[a]) && InBlock(blocks, a, a);
      DataDistinct(s, a, lo);
    }
  }

  // ---------- Whole operations ----------

  /** Nothing in use was given up: tables and live pages stay where they are. */
  ghost predicate Grew(s: State, t: State) {
    && SamePages(s, t)
    && (forall n | n in s.at :: n in t.at && t.at[n] == s.at[n])
    && (forall v | v in s.data :: v in t.data && t.data[v] == s.data[v])
  }

  /** Pages live before and after hold what they held. */
  ghost predicate Undisturbed(s: State, t: State) {
    forall v | v in s.data && v in t.data ::
      t.data[v] == s.data[v] && s.data[v] in s.heap && s.data[v] in t.heap && t.heap[s.data[v]] == s.heap[s.data[v]]
  }

  lemma UndisturbedSelf(s: State)
    requires Sound(s)
    ensures Undisturbed(s, s)
  {
  }

  lemma UndisturbedMore(s: State, t: State, u: State)
    requires Grew(s, t) && Undisturbed(s, t) && Undisturbed(t, u)
    ensures Undisturbed(s, u)
  {
  }

  lemma AttachedUndisturbed(s: State, t: State, v: nat)
    requires s.stack != [] && v !in s.data && SameData(Taken(s, v), t)
    ensures Undisturbed(s, t)
  {
    forall u | u in s.data && u in t.data
      ensures t.data[u] == s.data[u] && s.data[u] in s.heap && s.data[u] in t.heap
      ensures t.heap[s.data[u]] == s.heap[s.data[u]]
    {
      assert u in Taken(s, v).data;
    }
  }

  /** A store into a new page leaves the old ones alone. */
  lemma ScribbledUndisturbed(s: State, t: State, u: State, v: nat, i: nat, w: nat)
    requires Sound(t) && Grew(s, t) && Undisturbed(s, t) && v !in s.data
    requires HasData(t, v) && i < 512 && u == Scribbled(t, v, i, w)
    ensures Undisturbed(s, u)
  {
    hide Sound;
    forall q | q in s.data && q in u.data
      ensures u.data[q] == s.data[q] && s.data[q] in s.heap && s.data[q] in u.heap
      ensures u.heap[s.data[q]] == s.heap[s.data[q]]
    {
      DataDistinct(t, q, v);
    }
  }

  lemma FreedUndisturbed(s: State, v: nat)
    requires Sound(s) && HasData(s, v)
    ensures Undisturbed(s, Freed(s, v))
  {
    hide Sound;
    UndisturbedSelf(s);
    forall q | q in s.data && q != v
      ensures s.data[q] != s.data[v]
    {
      DataDistinct(s, q, v);
    }
  }

  lemma GrewRole(s: State, t: State)
    requires Grew(s, t)
    ensures t.role.Keys == s.role.Keys
  {
  }

  lemma GrewMore(s: State, t: State, u: State)
    requires Grew(s, t) && Grew(t, u)
    ensures Grew(s, u)
  {
  }

  lemma TakenPages(s: State, v: nat)
    requires Sound(s) && s.stack != []
    ensures SamePages(s, Taken(s, v))
  {
  }

  lemma GrewNot(s: State)
    ensures Grew(s, s)
  {
  }

  lemma AttachedGrew(s: State, t: State, v: nat)
    requires Sound(s) && s.stack != [] && v !in s.data
    requires SameData(Taken(s, v), t) && SamePages(Taken(s, v), t) && Took(Taken(s, v), t, v, 1)
    ensures Grew(s, t)
  {
    hide Sound;
    TakenPages(s, v);
  }

  lemma UseOf(s: State, f: nat)
    requires Sound(s) && f in s.role
    ensures Used(s, f)
  {
  }

  lemma RoleOfData(s: State, v: nat)
    requires Sound(s) && v in s.data
    ensures s.data[v] in s.role && s.role[s.data[v]] == Data(v)
  {
  }

  lemma RoleOfTable(s: State, n: Node)
    requires Sound(s) && n in s.at
    ensures s.at[n] in s.role && s.role[s.at[n]] == Table(n)
  {
  }

  /** A page that became a data page meanwhile was on the free list before. */
  lemma CameFromFree(s: State, t: State, v: nat)
    requires Sound(s) && Sound(t) && NoneLost(s) && Grew(s, t) && v in t.data && v !in s.data
    ensures t.data[v] in s.stack
  {
    hide Sound;
    var f := t.data[v];
    RoleOfData(t, v);
    UseOf(s, f);
    match s.role[f]
    case Free(i) =>
    case Table(n) => RoleOfTable(t, n);
    case Data(u) => RoleOfData(t, u);
  }

  /** The state of the memory manager between calls: `used` virtual pages have been handed out,
      and `id` pages are mapped to themselves. */
  ghost predicate Steady(s: State, blocks: map<nat, nat>, owner: map<nat, nat>, used: nat, id: nat) {
    && used <= PAGES && NoneLost(s)
    && Live(s, blocks, owner, 0, 0) && IdentityBelow(s, PAGES - used, id)
    && (forall v | v in s.data :: PAGES - used <= v < PAGES)
  }

  /** Inside `vmalloc`, with the pages `lo` to `v` of `lo` to `lo + n` attached. */
  ghost predicate Allocating(s: State, blocks: map<nat, nat>, owner: map<nat, nat>, id: nat, lo: nat, n: nat, v: nat) {
    && lo <= v <= lo + n <= PAGES && NoneLost(s)
    && Live(s, blocks, owner, lo, v) && IdentityBelow(s, lo, id)
    && (forall u | u in s.data :: lo <= u < v || lo + n <= u < PAGES)
    && Enough(s, v, lo + n - v)
  }

  lemma AllocationStarts(s: State, blocks: map<nat, nat>, owner: map<nat, nat>, used: nat, id: nat, n: nat)
    requires Steady(s, blocks, owner, used, id) && used + n + id <= PAGES && Enough(s, PAGES - used - n, n)
    ensures Allocating(s, blocks, owner, id, PAGES - used - n, n, PAGES - used - n)
  {
    var lo := PAGES - used - n;
    assert forall a, v: nat | InBlock(blocks, a, v) :: v in s.data;
  }

  lemma AllocationTurn(s: State, blocks: map<nat, nat>, owner: map<nat, nat>, id: nat, lo: nat, n: nat, virt: nat)
    requires Sound(s) && Allocating(s, blocks, owner, id, lo, n, PageOf(virt)) && PageOf(virt) < lo + n
    ensures HeadReady(s) && Sound(Taken(s, PageOf(virt))) && Buildable(Taken(s, PageOf(virt)), PageOf(virt), 1)
    ensures Sound(Attached(s, virt)) && Grew(s, Attached(s, virt)) && Undisturbed(s, Attached(s, virt))
    ensures Allocating(Attached(s, virt), blocks, owner, id, lo, n, PageOf(virt) + 1)
    ensures Attached(s, virt).data.Keys == s.data.Keys + {PageOf(virt)}
  {
    hide Sound, Live, IdentityBelow, Enough, Attached, EntrySet, SameData, SamePages;
    hide Took, Taken, HeadReady, PageOf, Buildable, NoneLost, Grew, Undisturbed;
    var v := PageOf(virt);
    AllocationFacts(s, blocks, owner, id, lo, n, v);
    var t := Attached(s, virt);
    AttachedSound(s, virt, lo + n - v, lo, id);
    IsHeadReady(s);
    TakenSound(s, v);
    AttachedBuildable(s, v, lo + n - v, lo, id);
    AttachedEnough(s, t, v, lo + n - v);
    AttachedIdentity(s, t, v, Pte(Head(s)), lo, id);
    AttachedLive(s, t, blocks, owner, lo, v);
    AttachedGrew(s, t, v);
    AttachedUndisturbed(s, t, v);
    AttachedRest(s, t, v);
    GrewNoneLost(s, t);
  }

  lemma AllocationFacts(s: State, blocks: map<nat, nat>, owner: map<nat, nat>, id: nat, lo: nat, n: nat, v: nat)
    requires Allocating(s, blocks, owner, id, lo, n, v) && v < lo + n
    ensures v !in s.data && s.stack != []
  {
  }

  lemma AttachedRest(s: State, t: State, v: nat)
    requires s.stack != [] && SameData(Taken(s, v), t)
    ensures t.data.Keys == s.data.Keys + {v}
  {
  }

  lemma GrewNoneLost(s: State, t: State)
    requires Grew(s, t) && NoneLost(s)
    ensures NoneLost(t)
  {
  }

  /** The first page of the new allocation can be written through its address. */
  lemma AllocationMapped(s: State, blocks: map<nat, nat>, owner: map<nat, nat>, id: nat, lo: nat, n: nat)
    requires n > 0 && Allocating(s, blocks, owner, id, lo, n, lo + n)
    ensures lo in s.data && Lookup(s, lo) == Pte(s.data[lo])
  {
    hide Lookup;
  }

  lemma ScribbledGrew(s: State, t: State, v: nat, i: nat, w: nat)
    requires HasData(s, v) && i < 512 && t == Scribbled(s, v, i, w)
    ensures Grew(s, t) && t.data == s.data
  {
  }

  /** Every page attached since `s` was free then. */
  lemma AllCameFromFree(s: State, t: State, lo: nat, hi: nat)
    requires Sound(s) && Sound(t) && NoneLost(s) && Grew(s, t)
    requires forall v | lo <= v < hi :: v in t.data && v !in s.data
    ensures forall v | lo <= v < hi :: t.data[v] in s.stack
  {
    hide Sound, NoneLost, Grew;
    forall v | lo <= v < hi
      ensures t.data[v] in s.stack
    {
      CameFromFree(s, t, v);
    }
  }

  lemma SteadyFacts(s: State, blocks: map<nat, nat>, owner: map<nat, nat>, used: nat, id: nat)
    requires Steady(s, blocks, owner, used, id)
    ensures used <= PAGES && NoneLost(s) && forall v | v in s.data :: PAGES - used <= v < PAGES
  {
  }

  lemma AllocationEnds(s: State, t: State, blocks: map<nat, nat>, owner: map<nat, nat>, id: nat, lo: nat, n: nat)
    requires Sound(s) && n > 0 && Allocating(s, blocks, owner, id, lo, n, lo + n)
    requires HasData(s, lo) && t == Scribbled(s, lo, 0, 4096 * n)
    ensures Steady(t, blocks[lo := n], Claimed(owner, lo, n), PAGES - lo, id)
  {
    hide Sound, Live, Claimed, Lookup;
    HeaderLive(s, t, blocks, owner, lo, lo + n);
    ScribbledView(s, t, lo, 0, 4096 * n);
  }

  /** Inside `vfree`, with the pages `lo` to `hi` of the allocation still to be freed. */
  ghost predicate Freeing(s: State, blocks: map<nat, nat>, owner: map<nat, nat>, used: nat, id: nat, lo: nat, hi: nat) {
    && used <= PAGES && NoneLost(s) && lo <= hi <= PAGES
    && Live(s, blocks, owner, lo, hi) && IdentityBelow(s, PAGES - used, id)
    && (forall v | v in s.data :: PAGES - used <= v < PAGES)
  }

  lemma FreeingStarts(s: State, blocks: map<nat, nat>, owner: map<nat, nat>, used: nat, id: nat, a: nat)
    requires Steady(s, blocks, owner, used, id) && a in blocks
    ensures blocks[a] > 0 && Headed(s, a, blocks[a])
    ensures Freeing(s, blocks - {a}, owner, used, id, a, a + blocks[a])
  {
    UnderWay(s, blocks, owner, a);
    assert InBlock(blocks, a, a + blocks[a] - 1);
  }

  lemma FreeingHead(s: State, blocks: map<nat, nat>, owner: map<nat, nat>, used: nat, id: nat, lo: nat, hi: nat)
    requires Freeing(s, blocks, owner, used, id, lo, hi) && lo < hi
    ensures lo in s.data && Lookup(s, lo) == Pte(s.data[lo])
  {
    hide Lookup;
  }

  lemma FreeingTurn(s: State, blocks: map<nat, nat>, owner: map<nat, nat>, used: nat, id: nat, lo: nat, hi: nat)
    requires Sound(s) && Freeing(s, blocks, owner, used, id, lo, hi) && lo < hi
    ensures HasData(s, lo) && s.data[lo] < FRAMES && Lookup(s, lo) == Pte(s.data[lo])
    ensures Sound(Freed(s, lo)) && Freeing(Freed(s, lo), blocks, owner, used, id, lo + 1, hi)
  {
    hide Sound, Lookup, Freed;
    FreeingFacts(s, blocks, owner, lo, hi);
    FreedSound(s, lo);
    FreedLive(s, Freed(s, lo), blocks, owner, lo, hi);
    FreedView(s, Freed(s, lo), lo);
    FreedRest(s, lo);
  }

  lemma FreeingFacts(s: State, blocks: map<nat, nat>, owner: map<nat, nat>, lo: nat, hi: nat)
    requires Sound(s) && Live(s, blocks, owner, lo, hi) && lo < hi
    ensures HasData(s, lo) && s.data[lo] < FRAMES && Lookup(s, lo) == Pte(s.data[lo])
  {
    hide Lookup;
  }

  lemma FreedRest(s: State, v: nat)
    requires Sound(s) && HasData(s, v)
    ensures SamePages(s, Freed(s, v)) && Freed(s, v).at == s.at && Freed(s, v).large == s.large
  {
  }

  lemma FreeingEnds(s: State, blocks: map<nat, nat>, owner: map<nat, nat>, used: nat, id: nat, hi: nat)
    requires Freeing(s, blocks, owner, used, id, hi, hi)
    ensures Steady(s, blocks, owner, used, id)
  {
    hide Lookup, Headed;
    forall v | v in s.data
      ensures Owned(blocks, owner, 0, 0, v)
    {
      assert Owned(blocks, owner, hi, hi, v);
    }
  }

  lemma DataInRange(s: State, v: nat)
    requires Sound(s) && v in s.data
    ensures HasData(s, v) && s.data[v] < FRAMES
  {
  }

  // ---------- Addresses ----------

  /** The next page of the address space in 64 bits. */
  lemma NextPage(a: nat)
    requires a < WORD
    ensures PageOf(a) + 1 < PAGES ==> PageOf((a + 4096) % WORD) == PageOf(a) + 1
  {
    var q, r := a / 4096, a % 4096;
    var b := (a + 4096) % WORD;
    if a + 4096 < WORD {
      DivIs(b, 4096, q + 1, r);
    } else {
      assert b == a + 4096 - WORD;
      assert q == 0xf_ffff_ffff_ffff;
    }
  }

  /** Whole pages of a byte count. */
  lemma RoundedUp(x: nat)
    requires 4096 <= x < WORD
    ensures PageBase(x % WORD) == 4096 * (x / 4096) && x / 4096 > 0
  {
  }

  /** `vfree_top` once `used` pages were taken below it in 64 bits, from 0 down. */
  function TopAddress(used: nat): (a: nat)
    requires used <= PAGES
    ensures a < WORD
  {
    (WORD - 4096 * used) % WORD
  }

  /** Taking `n` more pages below the top leads to the page that many lower. */
  lemma TopMoves(used: nat, n: nat)
    requires n > 0 && used + n <= PAGES
    ensures (TopAddress(used) + WORD - 4096 * n) % WORD == TopAddress(used + n)
    ensures PageOf(TopAddress(used + n)) == PAGES - used - n && TopAddress(used + n) % 4096 == 0
  {
    var a := TopAddress(used + n);
    assert a == WORD - 4096 * (used + n);
    DivIs(a, 4096, 0x10_0000_0000_0000 - used - n, 0);
    DivIs(0x10_0000_0000_0000 - used - n, PAGES, 0xffff, PAGES - used - n);
  }

  /** The address after the header lies on the same page. */
  lemma HeaderOffset(a: nat)
    requires a % 4096 == 0
    ensures PageOf(a + 8) == PageOf(a) && (a + 8) % 4096 == 8
  {
    DivIs(a + 8, 4096, a / 4096, 8);
  }

  lemma HeaderAddress(a: nat)
    requires a % 4096 == 8
    ensures a >= 8 && PageOf(a - 8) == PageOf(a) && (a - 8) % 4096 == 0
  {
    DivIs(a - 8, 4096, a / 4096, 0);
  }

  // ---------- What vfree has done so far ----------

  /** The frames behind `n` virtual pages from `a` on. */
  ghost function FramesOf(data: map<nat, nat>, a: nat, n: nat): seq<nat>
    requires forall v | a <= v < a + n :: v in data
  {
    if n == 0 then [] else FramesOf(data, a, n - 1) + [data[a + n - 1]]
  }

  /** `t` is `s` with the pages `a` to `v` freed in order. */
  ghost predicate Since(s: State, t: State, a: nat, v: nat) {
    && a <= v && t.at == s.at && SamePages(s, t)
    && (forall q: nat :: Lookup(t, q) == Lookup(s, q))
    && (forall u | a <= u < v :: u in s.data) && t.stack == s.stack + FramesOf(s.data, a, v - a)
    && (forall u: nat :: u in t.data <==> u in s.data && !(a <= u < v))
    && (forall u | u in t.data :: t.data[u] == s.data[u])
    && Undisturbed(s, t)
  }

  lemma SinceRole(s: State, t: State, a: nat, v: nat)
    requires Since(s, t, a, v)
    ensures t.role.Keys == s.role.Keys
  {
  }

  lemma UndisturbedSince(s: State, t: State, u: State)
    requires Undisturbed(s, t) && Undisturbed(t, u) && (forall q | q in u.data :: q in t.data)
    ensures Undisturbed(s, u)
  {
  }

  lemma SinceNow(s: State, a: nat)
    requires Sound(s)
    ensures Since(s, s, a, a)
  {
  }

  lemma SinceMore(s: State, t: State, a: nat, v: nat)
    requires Sound(t) && Since(s, t, a, v) && HasData(t, v)
    ensures Since(s, Freed(t, v), a, v + 1)
  {
    hide Sound, Lookup, Undisturbed;
    FreedView(t, Freed(t, v), v);
    FreedUndisturbed(t, v);
    UndisturbedSince(s, t, Freed(t, v));
    FreedRest(t, v);
    SamePagesMore(s, t, Freed(t, v));
  }

  lemma WordAligned(a: nat)
    requires a % 4096 == 0
    ensures a % 8 == 0
  {
    DivIs(a, 8, 512 * (a / 4096), 0);
  }

  // ---------- A page lost ----------

  /** A state in which a large page goes over a table of small ones, and that table is lost. */
  lemma PageLost() returns (s: State)
    ensures Sound(s) && NoneLost(s) && Buildable(s, PageOf(0), 2) && !NoneLost(Installed(s, 0, 2, 0x83))
  {
    hide Sound, Installed;
    var e := FourPages();
    RootTakenSound(e);
    var r := RootTaken(e);
    assert Buildable(r, PageOf(0), 1) by {
      AllMissing(r.at.Keys, 0);
    }
    InstalledSound(r, 0, 1, 3);
    InstalledPages(r, 0, 1, 3);
    InstalledTook(r, 0, 1, 3);
    s := Installed(r, 0, 1, 3);
    assert TableOf(0, 3) in s.at && TableOf(0, 2) in s.at && TableOf(0, 1) in s.at;
    LargeLosesTable(s, 0, 0x83);
  }

  lemma AllMissing(tables: set<Node>, p: nat)
    ensures Missing(tables, p, 1) <= 3
  {
    assert Missing(tables, p, 3) <= 1;
  }

  /** A root and no free page: installing anything finds the free list empty. */
  lemma Dry() returns (s: State)
    ensures Sound(s) && NoneLost(s) && s.stack == [] && exists l | 1 < l <= 4 :: DryAt(s, 0, l)
  {
    hide Sound, NoneLost, DryAt;
    var words := Zeroes(512);
    var s0 := State(map[], [], map[], map[], map[], map[], map[]);
    EmptySound(s0);
    OnePage(s0, 1, words);
    var s1 := Given(s0, 1, words);
    RootTakenSound(s1);
    RootTakenRest(s1);
    NoneLostStays(s1, RootTaken(s1));
    s := RootTaken(s1);
    RootAlone(s.at.Keys, PageOf(0));
    RunsDry(s, 0, 1);
  }

  lemma RootAlone(tables: set<Node>, p: nat)
    requires tables == {ROOT}
    ensures Missing(tables, p, 1) == 3
  {
    MissingTwo(tables, p);
  }

  lemma FourPages() returns (s: State)
    ensures Sound(s) && NoneLost(s) && |s.stack| == 4 && s.at == map[] && s.small == map[] && s.large == map[]
    ensures s.data == map[]
  {
    hide Sound, NoneLost;
    var words := Zeroes(512);
    var s0 := State(map[], [], map[], map[], map[], map[], map[]);
    EmptySound(s0);
    OnePage(s0, 1, words);
    var s1 := Given(s0, 1, words);
    OnePage(s1, 2, words);
    var s2 := Given(s1, 2, words);
    OnePage(s2, 3, words);
    var s3 := Given(s2, 3, words);
    OnePage(s3, 4, words);
    s := Given(s3, 4, words);
  }

  lemma EmptySound(s: State)
    requires s == State(map[], [], map[], map[], map[], map[], map[])
    ensures Sound(s) && NoneLost(s)
  {
  }

  lemma OnePage(s: State, f: nat, words: seq<nat>)
    requires Sound(s) && NoneLost(s) && |words| == 512 && f !in s.role && 0 < f < FRAMES
    ensures Sound(Given(s, f, words)) && NoneLost(Given(s, f, words))
  {
    hide Sound;
    GivenSound(s, f, words);
  }

  // ---------- Reaching the pages under management ----------

  /** Once paging is on, a page under management is still found at its own address. */
  lemma ReachedAtOwnAddress(s: State, blocks: map<nat, nat>, owner: map<nat, nat>, used: nat, id: nat, f: nat, o: nat)
    requires Steady(s, blocks, owner, used, id) && f < id && o < 4096
    ensures Physical(Lookup(s, f), 4096 * f + o) == 4096 * f + o
  {
    hide Physical, IdentityPte, Lookup, Live, NoneLost;
    DivIs(4096 * f + o, 4096, f, o);
    IdentityTranslates(4096 * f + o, id);
  }

  /** The page count of `vmalloc` is kept in 32 bits: as many pages are attached as the header
      records exactly if they are fewer than 2^32. */
  lemma PagesCounted(n: nat)
    ensures 4096 * n / 4096 % 0x1_0000_0000 == n <==> n < 0x1_0000_0000
    ensures 4096 * 0x1_0000_0000 / 4096 % 0x1_0000_0000 == 0
  {
    DivIs(4096 * n, 4096, n, 0);
  }

  // ---------- Use of an allocation ----------

  lemma SteadyMapped(s: State, blocks: map<nat, nat>, owner: map<nat, nat>, used: nat, id: nat, v: nat)
    requires Sound(s) && Steady(s, blocks, owner, used, id) && v in s.data
    ensures Lookup(s, v) == Pte(s.data[v]) && HasData(s, v)
  {
    hide Lookup;
  }

  lemma SteadyIdentity(s: State, blocks: map<nat, nat>, owner: map<nat, nat>, used: nat, id: nat, q: nat)
    requires Steady(s, blocks, owner, used, id) && q < id
    ensures id <= PAGES && Lookup(s, q) == IdentityPte(q, id)
  {
    hide Lookup, IdentityPte, Live, NoneLost;
  }

  lemma ScribbledSteady(s: State, blocks: map<nat, nat>, owner: map<nat, nat>, used: nat, id: nat,
                        v: nat, i: nat, w: nat)
    requires Sound(s) && Steady(s, blocks, owner, used, id) && HasData(s, v) && i < 512 && (v in blocks ==> i != 0)
    ensures Steady(Scribbled(s, v, i, w), blocks, owner, used, id) && SamePages(s, Scribbled(s, v, i, w))
  {
    hide Sound, Lookup, Owned;
    var t := Scribbled(s, v, i, w);
    ScribbledView(s, t, v, i, w);
    forall a | a in blocks
      ensures Headed(t, a, blocks[a])
    {
      assert Headed(s, a, blocks[a]);
      if a != v {
        DataDistinct(s, a, v);
      }
    }
  }
}
