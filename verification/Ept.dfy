/** The nested page tables of the kext: `ept_init`, `ept_add_page`, `ept_translate`
    and `ept_free`, with the walk the processor makes over the same words. */
module Ept {
  import opened Radix

  /** First word of the second page of an upper table, where kernel pointers start. */
  const PAGE_OFFSET: nat := 512

  /** Readable, writable and executable. */
  const EPT_DEFAULTS: nat := 7

  /** `o | EPT_DEFAULTS | EPT_CACHE_WRITEBACK` (bits 0-2, 4 and 5) on the twelve low bits. */
  function OrFlags(o: nat): (r: nat)
    requires o < 4096
    ensures r < 4096 && r % 8 == 7
  {
    64 * (o / 64) + 48 + 8 * (o / 8 % 2) + 7
  }

  /** `physical_address | EPT_DEFAULTS | EPT_CACHE_WRITEBACK` */
  function LeafWord(pa: nat): nat {
    4096 * (pa / 4096) + OrFlags(pa % 4096)
  }

  lemma Split(q: nat, r: nat)
    requires r < 4096
    ensures (4096 * q + r) / 4096 == q && (4096 * q + r) % 4096 == r && (4096 * q + r) % 8 == r % 8
  {
  }

  /** The flags never reach the address bits, and the entry is present. */
  lemma LeafWordFields(pa: nat)
    ensures PageBase(LeafWord(pa)) == PageBase(pa) && LeafWord(pa) % 8 == 7
  {
    hide OrFlags;
    Split(pa / 4096, OrFlags(pa % 4096));
  }

  /** One answer of the kernel allocator: the address of a page-aligned block and the number
      of its first physical page, so that `__pa(va)` is `4096 * frame`. */
  datatype Frame = Frame(va: nat, frame: nat)

  /** Physical page numbers are those an entry can hold in bits 12-51. */
  const FRAMES: nat := 0x100_0000_0000

  /** `__pa(p) | EPT_DEFAULTS` for a block in physical page `frame`. */
  function UpperWord(frame: nat): nat {
    4096 * frame + EPT_DEFAULTS
  }

  /** The answers the allocator will still give, each unlike the blocks (`phys`) and
      physical pages (`owner`) given before it. */
  ghost predicate Fresh(pool: seq<Frame>, phys: map<nat, nat>, owner: map<nat, nat>) {
    pool != [] ==>
      var f := pool[0];
      && f.va > 0 && f.frame < FRAMES && f.va !in phys && f.frame !in owner
      && Fresh(pool[1..], phys[f.va := f.frame], owner[f.frame := f.va])
  }

  /** Distinct blocks lie in distinct physical pages. */
  ghost predicate Physical(phys: map<nat, nat>, owner: map<nat, nat>) {
    forall p | p in phys :: phys[p] < FRAMES && phys[p] in owner && owner[phys[p]] == p
  }

  function WordsOf(level: nat): nat {
    if level == 1 then 512 else 1024
  }

  /** The memory of the tables: the blocks in use, their physical pages (`phys`, undone by
      `owner`) and the allocator's coming answers, with where each table lives (`at`) and which
      table each block is (`role`). */
  datatype Memory = Memory(
    heap: Blocks,
    phys: map<nat, nat>,
    owner: map<nat, nat>,
    pool: seq<Frame>,
    at: map<Node, nat>,
    role: map<nat, Node>)

  /** The blocks in use are exactly the tables, each with its allocated size. */
  ghost predicate Placed(s: Memory) {
    && s.heap.Keys == s.role.Keys
    && (forall n | n in s.at :: 1 <= n.level <= 4 && s.at[n] in s.role && s.role[s.at[n]] == n)
    && (forall p | p in s.role :: p > 0 && p in s.phys && s.role[p] in s.at && s.at[s.role[p]] == p)
    && (forall p | p in s.role :: |s.heap[p]| == WordsOf(s.role[p].level))
  }

  /** Every table but the root hangs from its parent. */
  ghost predicate Closed(s: Memory) {
    && ROOT in s.at
    && (forall n | n in s.at :: if n.level < 4 then Parent(n) in s.at else n == ROOT)
  }

  /** Both halves of entry `i` of an upper table speak of the same child, or of none. */
  ghost predicate Link(s: Memory, n: Node, i: nat)
    requires Placed(s) && n in s.at && n.level >= 2 && i < 512
  {
    var words, c := s.heap[s.at[n]], Child(n, i);
    if c in s.at
    then words[PAGE_OFFSET + i] == s.at[c] && words[i] == UpperWord(s.phys[s.at[c]])
    else words[PAGE_OFFSET + i] == 0 && words[i] == 0
  }

  ghost predicate Linked(s: Memory)
    requires Placed(s)
  {
    forall n, i | n in s.at && n.level >= 2 && 0 <= i < 512 :: Link(s, n, i)
  }

  /** A leaf table holds the entries of the pages mapped under it. */
  ghost predicate Holds(s: Memory, mapped: map<nat, nat>, n: Node, i: nat)
    requires Placed(s) && n in s.at && n.level == 1 && i < 512
  {
    var p := Child(n, i).key;
    s.heap[s.at[n]][i] == if p in mapped then LeafWord(mapped[p]) else 0
  }

  ghost predicate Tree(s: Memory, mapped: map<nat, nat>) {
    && Placed(s) && Closed(s) && Linked(s)
    && (forall n, i | n in s.at && n.level == 1 && 0 <= i < 512 :: Holds(s, mapped, n, i))
    && (forall p | p in mapped :: p < PAGES && TableOf(p, 1) in s.at)
  }

  /** Entry `i` of table `n` can be filled: the table is there, the entry empty, a block to be had. */
  ghost predicate Empty(s: Memory, n: Node, i: nat) {
    && n in s.at && n.level >= 2 && i < 512 && Child(n, i) !in s.at
    && s.pool != [] && s.pool[0].va > 0 && s.pool[0].va !in s.phys
  }

  /** A fresh zeroed block, entered in both halves of its parent. */
  function Grown(s: Memory, n: Node, i: nat): Memory
    requires n.level >= 2 && i < 512 && s.pool != []
    requires n in s.at && s.at[n] in s.heap && s.at[n] != s.pool[0].va && |s.heap[s.at[n]]| == 1024
  {
    var c, f := Child(n, i), s.pool[0];
    var h := Put(s.heap[f.va := Zeroes(WordsOf(c.level))], s.at[n], PAGE_OFFSET + i, f.va);
    Memory(Put(h, s.at[n], i, UpperWord(f.frame)),
           s.phys[f.va := f.frame], s.owner[f.frame := f.va], s.pool[1..],
           s.at[c := f.va], s.role[f.va := c])
  }

  lemma GrownPlaced(s: Memory, n: Node, i: nat)
    requires Placed(s) && Empty(s, n, i)
    ensures Placed(Grown(s, n, i))
  {
    var t := Grown(s, n, i);
    forall p | p in t.role
      ensures p > 0 && p in t.phys && t.role[p] in t.at && t.at[t.role[p]] == p
      ensures |t.heap[p]| == WordsOf(t.role[p].level)
    {
      assert p in s.role ==> s.role[p] in s.at;
    }
  }

  /** The words of every other table are untouched. */
  lemma GrownFrame(s: Memory, n: Node, i: nat, m: Node)
    requires Placed(s) && Empty(s, n, i) && m in s.at
    ensures var t := Grown(s, n, i);
            && t.at[m] == s.at[m]
            && t.phys[s.at[m]] == s.phys[s.at[m]]
            && (m != n ==> t.heap[s.at[m]] == s.heap[s.at[m]])
  {
    GrownPlaced(s, n, i);
  }

  lemma GrownClosed(s: Memory, n: Node, i: nat)
    requires Placed(s) && Closed(s) && Empty(s, n, i)
    ensures Closed(Grown(s, n, i))
  {
    ParentOfChild(n, i);
  }

  /** The new table has no children yet. */
  lemma GrownEmpty(s: Memory, n: Node, i: nat, j: nat)
    requires Placed(s) && Closed(s) && Empty(s, n, i) && j < 512
    ensures n.level >= 3 ==> Child(Child(n, i), j) !in Grown(s, n, i).at
  {
    if n.level >= 3 {
      ParentOfChild(Child(n, i), j);
      assert Child(Child(n, i), j) !in s.at;
    }
  }

  /** What the store leaves in the parent. */
  lemma GrownParent(s: Memory, n: Node, i: nat, j: nat)
    requires Placed(s) && Empty(s, n, i) && j < 512
    ensures var t, words := Grown(s, n, i), s.heap[s.at[n]];
            && t.at[Child(n, i)] == s.pool[0].va && t.phys[s.pool[0].va] == s.pool[0].frame
            && t.heap[s.at[n]][PAGE_OFFSET + j] == (if j == i then s.pool[0].va else words[PAGE_OFFSET + j])
            && t.heap[s.at[n]][j] == (if j == i then UpperWord(s.pool[0].frame) else words[j])
  {
    hide UpperWord;
  }

  lemma GrownTables(s: Memory, n: Node, i: nat)
    requires Placed(s) && Empty(s, n, i)
    ensures Grown(s, n, i).at.Keys == s.at.Keys + {Child(n, i)}
  {
  }

  lemma GrownLink(s: Memory, n: Node, i: nat, m: Node, j: nat)
    requires Placed(s) && Linked(s) && Empty(s, n, i)
    requires m in s.at && m.level >= 2 && j < 512
    ensures Placed(Grown(s, n, i)) && Link(Grown(s, n, i), m, j)
  {
    assert Link(s, m, j);
    hide Grown, UpperWord, Linked;
    GrownPlaced(s, n, i);
    GrownTables(s, n, i);
    GrownFrame(s, n, i, m);
    GrownParent(s, n, i, j);
    ParentOfChild(n, i);
    ParentOfChild(m, j);
    if Child(m, j) in s.at {
      GrownFrame(s, n, i, Child(m, j));
    }
  }

  lemma GrownLinked(s: Memory, n: Node, i: nat)
    requires Placed(s) && Closed(s) && Linked(s) && Empty(s, n, i)
    ensures Placed(Grown(s, n, i)) && Linked(Grown(s, n, i))
  {
    GrownPlaced(s, n, i);
    var t, c := Grown(s, n, i), Child(n, i);
    forall m, j | m in t.at && m.level >= 2 && 0 <= j < 512
      ensures Link(t, m, j)
    {
      if m == c {
        GrownEmpty(s, n, i, j);
      } else {
        GrownLink(s, n, i, m, j);
      }
    }
  }

  lemma LeafOfPage(n: Node, i: nat)
    requires n.level == 1 && i < 512
    ensures TableOf(Child(n, i).key, 1) == n
  {
    assert Key(Child(n, i).key, 1) == Key(Child(n, i).key, 0) / 512;
    ParentOfChild(n, i);
  }

  lemma GrownTree(s: Memory, mapped: map<nat, nat>, n: Node, i: nat)
    requires Tree(s, mapped) && Empty(s, n, i)
    ensures Tree(Grown(s, n, i), mapped)
  {
    GrownLinked(s, n, i);
    GrownClosed(s, n, i);
    var t, c := Grown(s, n, i), Child(n, i);
    forall m, j | m in t.at && m.level == 1 && 0 <= j < 512
      ensures Holds(t, mapped, m, j)
    {
      if m == c {
        LeafOfPage(c, j);
      } else {
        GrownFrame(s, n, i, m);
        assert Holds(s, mapped, m, j);
      }
    }
  }

  /** The invariant every call keeps. */
  ghost predicate Sound(s: Memory, mapped: map<nat, nat>) {
    Tree(s, mapped) && Physical(s.phys, s.owner) && Fresh(s.pool, s.phys, s.owner)
  }

  lemma GrownSound(s: Memory, mapped: map<nat, nat>, n: Node, i: nat)
    requires Sound(s, mapped) && Empty(s, n, i)
    ensures Sound(Grown(s, n, i), mapped)
  {
    GrownTree(s, mapped, n, i);
    GrownPhysical(s, n, i);
  }

  lemma GrownPhysical(s: Memory, n: Node, i: nat)
    requires Placed(s) && Physical(s.phys, s.owner) && Fresh(s.pool, s.phys, s.owner) && Empty(s, n, i)
    ensures var t := Grown(s, n, i); Physical(t.phys, t.owner) && Fresh(t.pool, t.phys, t.owner)
  {
  }

  /** Entry `i` of table `n` can be read, tells whether the child exists, and can be filled if not. */
  ghost predicate Ready(s: Memory, n: Node, i: nat) {
    && n in s.at && n.level >= 2 && i < 512
    && s.at[n] in s.heap && |s.heap[s.at[n]]| == 1024
    && s.heap[s.at[n]][PAGE_OFFSET + i] == (if Child(n, i) in s.at then s.at[Child(n, i)] else 0)
    && (if Child(n, i) in s.at then s.at[Child(n, i)] > 0
        else s.pool != [] && s.pool[0].va > 0 && s.pool[0].va != s.at[n])
  }

  lemma IsReady(s: Memory, mapped: map<nat, nat>, n: Node, i: nat)
    requires Sound(s, mapped) && n in s.at && n.level >= 2 && i < 512 && s.pool != []
    ensures Ready(s, n, i)
  {
    assert Link(s, n, i);
  }

  /** One of the three blocks of `ept_add_page`: the child behind entry `i`, made when there is none. */
  function Filled(s: Memory, n: Node, i: nat): Memory
    requires Ready(s, n, i)
  {
    if Child(n, i) in s.at then s else Grown(s, n, i)
  }

  lemma IsEmpty(s: Memory, mapped: map<nat, nat>, n: Node, i: nat)
    requires Sound(s, mapped) && n in s.at && n.level >= 2 && i < 512 && s.pool != [] && Child(n, i) !in s.at
    ensures Empty(s, n, i)
  {
  }

  lemma FilledSound(s: Memory, mapped: map<nat, nat>, n: Node, i: nat)
    requires Sound(s, mapped) && n in s.at && n.level >= 2 && i < 512 && s.pool != []
    ensures Ready(s, n, i) && Sound(Filled(s, n, i), mapped)
    ensures Filled(s, n, i).at.Keys == s.at.Keys + {Child(n, i)}
    ensures |Filled(s, n, i).pool| >= |s.pool| - 1
  {
    hide Sound;
    IsReady(s, mapped, n, i);
    if Child(n, i) !in s.at {
      IsEmpty(s, mapped, n, i);
      GrownSound(s, mapped, n, i);
    }
  }

  lemma FilledRoot(s: Memory, mapped: map<nat, nat>, n: Node, i: nat)
    requires Sound(s, mapped) && Ready(s, n, i)
    ensures ROOT in s.at && ROOT in Filled(s, n, i).at && Filled(s, n, i).at[ROOT] == s.at[ROOT]
  {
  }

  /** What the pointer half of an entry tells. */
  lemma ReadPointer(s: Memory, mapped: map<nat, nat>, n: Node, i: nat)
    requires Tree(s, mapped) && n in s.at && n.level >= 2 && i < 512
    ensures s.at[n] in s.heap && |s.heap[s.at[n]]| == 1024
    ensures s.heap[s.at[n]][PAGE_OFFSET + i] == if Child(n, i) in s.at then s.at[Child(n, i)] else 0
    ensures Child(n, i) in s.at ==> s.at[Child(n, i)] > 0
  {
    assert Link(s, n, i);
  }

  // ---------- ept_add_page as a function of the memory ----------

  /** The next table on the path of `gpa`, made when there is none. */
  ghost function Deepened(s: Memory, mapped: map<nat, nat>, gpa: nat, level: nat): (t: Memory)
    requires Sound(s, mapped) && 1 <= level <= 3 && s.pool != [] && TableOf(PageOf(gpa), level + 1) in s.at
    ensures Sound(t, mapped) && ROOT in s.at && ROOT in t.at && t.at[ROOT] == s.at[ROOT]
    ensures TableOf(PageOf(gpa), level) in t.at && |t.pool| >= |s.pool| - 1
  {
    hide Sound, Filled, PageOf, Index, TableOf;
    var n, i := TableOf(PageOf(gpa), level + 1), Index(gpa, level + 1);
    IndexFollowsPath(gpa, level + 1);
    LevelOfPath(PageOf(gpa), level + 1);
    FilledSound(s, mapped, n, i);
    FilledRoot(s, mapped, n, i);
    Filled(s, n, i)
  }

  lemma LevelOfPath(p: nat, level: nat)
    ensures TableOf(p, level).level == level
  {
  }

  /** The memory once the tables of levels 3 down to `level` on the path of `gpa` exist. */
  ghost function Descended(s: Memory, mapped: map<nat, nat>, gpa: nat, level: nat): (t: Memory)
    requires Sound(s, mapped) && 1 <= level <= 4 && |s.pool| >= 4 - level
    ensures Sound(t, mapped) && ROOT in s.at && ROOT in t.at && t.at[ROOT] == s.at[ROOT]
    ensures TableOf(PageOf(gpa), level) in t.at && |t.pool| >= |s.pool| - (4 - level)
    decreases 4 - level
  {
    hide Sound, Deepened, PageOf, TableOf;
    if level == 4 then
      RootAt(s, mapped);
      IndexFollowsPath(gpa, 4);
      s
    else
      Deepened(Descended(s, mapped, gpa, level + 1), mapped, gpa, level)
  }

  lemma RootAt(s: Memory, mapped: map<nat, nat>)
    requires Sound(s, mapped)
    ensures ROOT in s.at
  {
  }

  /** One step down the path fills the entry the code computes. */
  lemma DescendedStep(s: Memory, mapped: map<nat, nat>, gpa: nat, level: nat)
    requires Sound(s, mapped) && 1 <= level <= 3 && |s.pool| >= 4 - level
    ensures var u, n, i := Descended(s, mapped, gpa, level + 1), TableOf(PageOf(gpa), level + 1), Index(gpa, level + 1);
            && Ready(u, n, i) && Child(n, i) == TableOf(PageOf(gpa), level)
            && Descended(s, mapped, gpa, level) == Filled(u, n, i)
            && Filled(u, n, i).at.Keys == u.at.Keys + {TableOf(PageOf(gpa), level)}
  {
    hide Sound;
    hide Filled;
    var u, n, i := Descended(s, mapped, gpa, level + 1), TableOf(PageOf(gpa), level + 1), Index(gpa, level + 1);
    IndexFollowsPath(gpa, level + 1);
    FilledSound(u, mapped, n, i);
  }

  /** Descending adds tables on the path only. */
  lemma {:induction false} DescendedOnPath(s: Memory, mapped: map<nat, nat>, gpa: nat, level: nat, n: Node)
    requires Sound(s, mapped) && 1 <= level <= 4 && |s.pool| >= 4 - level
    requires n in Descended(s, mapped, gpa, level).at
    ensures n in s.at || n == TableOf(PageOf(gpa), n.level)
    decreases 4 - level
  {
    hide Sound;
    hide Filled;
    hide PageOf;
    if level < 4 {
      DescendedStep(s, mapped, gpa, level);
      if n in Descended(s, mapped, gpa, level + 1).at {
        DescendedOnPath(s, mapped, gpa, level + 1, n);
      }
    }
  }

  lemma PathUp(s: Memory, p: nat, level: nat)
    requires Closed(s) && 1 <= level < 4 && TableOf(p, level) in s.at
    ensures TableOf(p, level + 1) in s.at
  {
    assert Parent(TableOf(p, level)) == TableOf(p, level + 1);
  }

  /** The store of the last line of `ept_add_page`. */
  function Stored(s: Memory, n: Node, i: nat, v: nat): Memory
    requires n in s.at && s.at[n] in s.heap && i < |s.heap[s.at[n]]|
  {
    s.(heap := Put(s.heap, s.at[n], i, v))
  }

  lemma StoredLinked(s: Memory, n: Node, i: nat, v: nat)
    requires Placed(s) && Closed(s) && Linked(s) && n in s.at && n.level == 1 && i < 512
    ensures Placed(Stored(s, n, i, v)) && Closed(Stored(s, n, i, v)) && Linked(Stored(s, n, i, v))
  {
    var t := Stored(s, n, i, v);
    forall m, j | m in t.at && m.level >= 2 && 0 <= j < 512
      ensures Link(t, m, j)
    {
      assert Link(s, m, j);
    }
  }

  lemma StoredHolds(s: Memory, mapped: map<nat, nat>, p: nat, pa: nat, m: Node, j: nat)
    requires Placed(s) && TableOf(p, 1) in s.at && m in s.at && m.level == 1 && j < 512
    requires Holds(s, mapped, m, j)
    ensures var t := Stored(s, TableOf(p, 1), p % 512, LeafWord(pa));
            Placed(t) && Holds(t, mapped[p := pa], m, j)
  {
    LeafOfPage(m, j);
    assert Child(TableOf(p, 1), p % 512).key == p by {
      assert Key(p, 1) == Key(p, 0) / 512;
    }
    ParentOfChild(m, j);
  }

  /** Storing a leaf entry maps its page and disturbs no other. */
  lemma StoredTree(s: Memory, mapped: map<nat, nat>, p: nat, pa: nat)
    requires Tree(s, mapped) && p < PAGES && TableOf(p, 1) in s.at
    ensures Tree(Stored(s, TableOf(p, 1), p % 512, LeafWord(pa)), mapped[p := pa])
  {
    var n := TableOf(p, 1);
    var t, after := Stored(s, n, p % 512, LeafWord(pa)), mapped[p := pa];
    StoredLinked(s, n, p % 512, LeafWord(pa));
    forall m, j | m in t.at && m.level == 1 && 0 <= j < 512
      ensures Holds(t, after, m, j)
    {
      StoredHolds(s, mapped, p, pa, m, j);
    }
  }

  lemma StoredSound(s: Memory, mapped: map<nat, nat>, p: nat, pa: nat)
    requires Sound(s, mapped) && p < PAGES && TableOf(p, 1) in s.at
    ensures s.at[TableOf(p, 1)] in s.heap && |s.heap[s.at[TableOf(p, 1)]]| == 512
    ensures Sound(Stored(s, TableOf(p, 1), p % 512, LeafWord(pa)), mapped[p := pa])
  {
    StoredTree(s, mapped, p, pa);
  }

  /** `ept_add_page` */
  ghost function Added(s: Memory, mapped: map<nat, nat>, gpa: nat, pa: nat): (t: Memory)
    requires Sound(s, mapped) && |s.pool| >= 3
    ensures Sound(t, mapped[PageOf(gpa) := pa]) && |t.pool| >= |s.pool| - 3
    ensures ROOT in s.at && ROOT in t.at && t.at[ROOT] == s.at[ROOT]
    ensures t.at == Descended(s, mapped, gpa, 1).at
  {
    hide Sound;
    var u := Descended(s, mapped, gpa, 1);
    StoredSound(u, mapped, PageOf(gpa), pa);
    Stored(u, TableOf(PageOf(gpa), 1), PageOf(gpa) % 512, LeafWord(pa))
  }

  /** The store goes to the slot the code computes. */
  lemma AddedIs(s: Memory, mapped: map<nat, nat>, gpa: nat, pa: nat)
    requires Sound(s, mapped) && |s.pool| >= 3
    ensures Descended(s, mapped, gpa, 4) == s && TableOf(PageOf(gpa), 4) == ROOT
    ensures var u, n := Descended(s, mapped, gpa, 1), TableOf(PageOf(gpa), 1);
            && n in u.at && u.at[n] in u.heap && |u.heap[u.at[n]]| == 512
            && Added(s, mapped, gpa, pa) == u.(heap := Put(u.heap, u.at[n], Index(gpa, 1), LeafWord(pa)))
  {
    hide Sound, LeafWord, Index, PageOf;
    StoredSound(Descended(s, mapped, gpa, 1), mapped, PageOf(gpa), pa);
    IndexFollowsPath(gpa, 4);
    SlotOfPage(gpa);
  }

  lemma SlotOfPage(gpa: nat)
    ensures Index(gpa, 1) == PageOf(gpa) % 512
  {
    IndexFollowsPath(gpa, 1);
  }

  /** Every leaf table serves a mapped page. */
  ghost predicate Tight(s: Memory, mapped: map<nat, nat>) {
    forall n | n in s.at && n.level == 1 :: exists p :: p in mapped && TableOf(p, 1) == n
  }

  lemma AddedTight(s: Memory, mapped: map<nat, nat>, gpa: nat, pa: nat)
    requires Sound(s, mapped) && |s.pool| >= 3 && Tight(s, mapped)
    ensures Tight(Added(s, mapped, gpa, pa), mapped[PageOf(gpa) := pa])
  {
    hide Sound;
    hide PageOf;
    var t, after := Added(s, mapped, gpa, pa), mapped[PageOf(gpa) := pa];
    forall n | n in t.at && n.level == 1
      ensures exists q :: q in after && TableOf(q, 1) == n
    {
      DescendedOnPath(s, mapped, gpa, 1, n);
      if n in s.at {
        var q :| q in mapped && TableOf(q, 1) == n;
        assert q in after;
      } else {
        assert PageOf(gpa) in after;
      }
    }
  }

  // ---------- The walk of sections 28.2.2 and 28.2.3 of the Intel SDM, volume 3C ----------

  /** Bits 12-51 of an entry, a physical page number. */
  function FrameField(e: nat): nat {
    e / 4096 % FRAMES
  }

  ghost predicate Backs(s: Memory, p: nat, frame: nat) {
    p in s.heap && p in s.phys && s.phys[p] == frame && |s.heap[p]| >= 512
  }

  /** Word `i` of a physical page. */
  ghost function ReadPhysical(s: Memory, frame: nat, i: nat): nat
    requires i < 512
  {
    if exists p :: Backs(s, p, frame) then
      var p :| Backs(s, p, frame);
      s.heap[p][i]
    else 0
  }

  /** How a walk ends: with an EPT violation, an EPT misconfiguration, or at a leaf entry, with
      the access every entry on the way allows. */
  datatype Walk = Violation | Misconfigured | Reached(level: nat, entry: nat, access: Access)

  datatype Access = Access(read: bool, write: bool, fetch: bool)

  /** Bits 0-2 of an entry. */
  function AccessOf(e: nat): Access {
    Access(e % 2 == 1, e / 2 % 2 == 1, e / 4 % 2 == 1)
  }

  function Both(a: Access, b: Access): Access {
    Access(a.read && b.read, a.write && b.write, a.fetch && b.fetch)
  }

  lemma FullAccess(e: nat)
    requires e % 8 == 7
    ensures AccessOf(e) == Access(true, true, true)
  {
    DivIs(e, 2, 4 * (e / 8) + 3, 1);
    DivIs(4 * (e / 8) + 3, 2, 2 * (e / 8) + 1, 1);
    DivIs(e, 4, 2 * (e / 8) + 1, 3);
    DivIs(2 * (e / 8) + 1, 2, e / 8, 1);
  }

  /** Whether a present entry maps a page. */
  predicate IsLeaf(e: nat, level: nat) {
    level == 1 || (level <= 3 && e / 128 % 2 == 1)
  }

  /** Section 28.2.3.1: writable but not readable, an address beyond the `frames` pages the
      processor can address, a reserved memory type in a leaf (with the low address bits of a
      large page clear), or a reserved bit in any other entry. */
  predicate IsMisconfigured(e: nat, level: nat, frames: nat) {
    || e % 4 == 2
    || FrameField(e) >= frames
    || (if IsLeaf(e, level)
        then
          || e / 8 % 8 in {2, 3, 7}
          || (level == 2 && FrameField(e) % 512 != 0)
          || (level == 3 && FrameField(e) % 0x4_0000 != 0)
        else e / 8 % 16 != 0 || (level == 4 && e / 128 % 2 == 1))
  }

  ghost function HardwareWalk(s: Memory, table: nat, gpa: nat, level: nat, frames: nat): Walk
    requires 1 <= level <= 4
    decreases level
  {
    var e := ReadPhysical(s, table, Index(gpa, level));
    if e % 8 == 0 then Violation
    else if IsMisconfigured(e, level, frames) then Misconfigured
    else if IsLeaf(e, level) then Reached(level, e, AccessOf(e))
    else
      match HardwareWalk(s, FrameField(e), gpa, level - 1, frames)
      case Reached(l, leaf, access) => Reached(l, leaf, Both(access, AccessOf(e)))
      case fault => fault
  }

  /** From the EPT pointer; bits 3-5 hold the walk length less one, and only four levels exist. */
  ghost function HardwareTranslate(s: Memory, eptp: nat, gpa: nat, frames: nat): Walk {
    var length := eptp / 8 % 8 + 1;
    if length == 4 then HardwareWalk(s, FrameField(eptp), gpa, length, frames) else Violation
  }

  /** The blocks of the tables lie in memory the processor can address. */
  ghost predicate Addressable(phys: map<nat, nat>, frames: nat) {
    frames <= FRAMES && forall p | p in phys :: phys[p] < frames
  }

  lemma ReadTable(s: Memory, n: Node, i: nat)
    requires Placed(s) && Physical(s.phys, s.owner) && n in s.at && i < 512
    ensures ReadPhysical(s, s.phys[s.at[n]], i) == s.heap[s.at[n]][i]
  {
    assert Backs(s, s.at[n], s.phys[s.at[n]]);
  }

  lemma UpperWordFields(frame: nat)
    requires frame < FRAMES
    ensures UpperWord(frame) % 8 == 7 && UpperWord(frame) / 128 == 32 * frame
    ensures FrameField(UpperWord(frame)) == frame
  {
    DivIs(UpperWord(frame), 8, 512 * frame, 7);
    DivIs(UpperWord(frame), 128, 32 * frame, 7);
    DivIs(UpperWord(frame), 4096, frame, 7);
    DivIs(frame, FRAMES, 0, frame);
  }

  /** An entry for a table is neither a leaf nor misconfigured. */
  lemma UpperWordFollowed(frame: nat, level: nat, frames: nat)
    requires frame < frames <= FRAMES && 2 <= level <= 4
    ensures !IsLeaf(UpperWord(frame), level) && !IsMisconfigured(UpperWord(frame), level, frames)
  {
    var e := UpperWord(frame);
    UpperWordFields(frame);
    DivIs(32 * frame, 2, 16 * frame, 0);
    DivIs(e, 4, 1024 * frame + 1, 3);
    DivIs(e, 8, 512 * frame, 7);
    DivIs(512 * frame, 16, 32 * frame, 0);
  }

  lemma LeafParts(q: nat, h: nat, b: nat)
    requires h < 64 && b < 2
    ensures var w := 4096 * q + (64 * h + 48 + 8 * b + 7);
            w / 8 % 8 == 6 + b && w % 4 == 3 && w / 4096 == q
  {
    var w := 4096 * q + (64 * h + 48 + 8 * b + 7);
    DivIs(w, 8, 512 * q + 8 * h + 6 + b, 7);
    DivIs(512 * q + 8 * h + 6 + b, 8, 64 * q + h, 6 + b);
    DivIs(w, 4, 1024 * q + 16 * h + 12 + 2 * b + 1, 3);
    DivIs(w, 4096, q, 64 * h + 48 + 8 * b + 7);
  }

  /** Bit 3 of an address is bit 3 of its offset. */
  lemma BitThree(q: nat, o: nat)
    ensures (4096 * q + o) / 8 % 2 == o / 8 % 2
  {
    var x := o / 8;
    DivIs(4096 * q + o, 8, 512 * q + x, o % 8);
    DivIs(512 * q + x, 2, 256 * q + x / 2, x % 2);
  }

  /** The leaf entry has memory type 6 (write-back), or 7 (reserved) if bit 3 of the address was
      set, which the code does not clear. */
  lemma LeafType(pa: nat)
    ensures LeafWord(pa) / 8 % 8 == 6 + pa / 8 % 2
    ensures LeafWord(pa) % 4 == 3 && FrameField(LeafWord(pa)) == FrameField(pa) && LeafWord(pa) / 64 == pa / 64
  {
    var q, o := pa / 4096, pa % 4096;
    var h, b := o / 64, o / 8 % 2;
    assert pa == 4096 * q + o && LeafWord(pa) == 4096 * q + (64 * h + 48 + 8 * b + 7);
    hide LeafWord;
    BitThree(q, o);
    LeafParts(q, h, b);
    DivIs(LeafWord(pa), 64, 64 * q + h, 48 + 8 * b + 7);
    DivIs(pa, 64, 64 * q + h, o % 64);
  }

  /** The condition under which the processor accepts the leaf entry for `pa`. */
  predicate Acceptable(pa: nat, frames: nat) {
    pa / 8 % 2 == 0 && FrameField(pa) < frames
  }

  lemma LeafMisconfigured(pa: nat, frames: nat)
    ensures IsMisconfigured(LeafWord(pa), 1, frames) <==> !Acceptable(pa, frames)
  {
    hide LeafWord, FrameField;
    LeafType(pa);
  }

  /** What the processor finds for page `p`. */
  ghost function Expected(mapped: map<nat, nat>, p: nat, frames: nat): Walk {
    if p !in mapped then Violation
    else if Acceptable(mapped[p], frames) then Reached(1, LeafWord(mapped[p]), Access(true, true, true))
    else Misconfigured
  }

  lemma HardwareLeaf(s: Memory, mapped: map<nat, nat>, gpa: nat, frames: nat)
    requires Tree(s, mapped) && Physical(s.phys, s.owner) && TableOf(PageOf(gpa), 1) in s.at
    ensures HardwareWalk(s, s.phys[s.at[TableOf(PageOf(gpa), 1)]], gpa, 1, frames)
         == Expected(mapped, PageOf(gpa), frames)
  {
    hide IsMisconfigured, Acceptable, LeafWord, AccessOf;
    var p, n, i := PageOf(gpa), TableOf(PageOf(gpa), 1), Index(gpa, 1);
    IndexFollowsPath(gpa, 1);
    ReadTable(s, n, i);
    assert Holds(s, mapped, n, i);
    if p in mapped {
      LeafWordFields(mapped[p]);
      FullAccess(LeafWord(mapped[p]));
      LeafMisconfigured(mapped[p], frames);
    }
  }

  /** At an upper level the processor follows exactly the link software follows. */
  lemma HardwareStep(s: Memory, gpa: nat, level: nat, frames: nat)
    requires Placed(s) && Linked(s) && Physical(s.phys, s.owner) && Addressable(s.phys, frames) && 2 <= level <= 4
    requires TableOf(PageOf(gpa), level) in s.at
    ensures HardwareWalk(s, s.phys[s.at[TableOf(PageOf(gpa), level)]], gpa, level, frames)
         == if TableOf(PageOf(gpa), level - 1) in s.at
            then HardwareWalk(s, s.phys[s.at[TableOf(PageOf(gpa), level - 1)]], gpa, level - 1, frames)
            else Violation
  {
    hide IsMisconfigured, IsLeaf, FrameField, UpperWord, AccessOf;
    var n, i, c := TableOf(PageOf(gpa), level), Index(gpa, level), TableOf(PageOf(gpa), level - 1);
    IndexFollowsPath(gpa, level);
    ReadTable(s, n, i);
    assert Link(s, n, i);
    if c in s.at {
      UpperWordFields(s.phys[s.at[c]]);
      FullAccess(UpperWord(s.phys[s.at[c]]));
      UpperWordFollowed(s.phys[s.at[c]], level, frames);
    }
  }

  /** The walk started at the table of `level` on the path finds what it should. */
  ghost predicate WalksFrom(s: Memory, mapped: map<nat, nat>, gpa: nat, level: nat, frames: nat)
    requires Placed(s) && 1 <= level <= 4
  {
    var n := TableOf(PageOf(gpa), level);
    n in s.at ==> HardwareWalk(s, s.phys[s.at[n]], gpa, level, frames) == Expected(mapped, PageOf(gpa), frames)
  }

  lemma HardwareUp(s: Memory, mapped: map<nat, nat>, gpa: nat, level: nat, frames: nat)
    requires Tree(s, mapped) && Physical(s.phys, s.owner) && Addressable(s.phys, frames) && 2 <= level <= 4
    requires WalksFrom(s, mapped, gpa, level - 1, frames)
    ensures WalksFrom(s, mapped, gpa, level, frames)
  {
    hide HardwareWalk, Acceptable, PageOf;
    if TableOf(PageOf(gpa), level) in s.at {
      HardwareStep(s, gpa, level, frames);
      if TableOf(PageOf(gpa), level - 1) !in s.at {
        NoPath(s, PageOf(gpa), level - 1);
      }
    }
  }

  lemma {:induction false} HardwareFrom(s: Memory, mapped: map<nat, nat>, gpa: nat, level: nat, frames: nat)
    requires Tree(s, mapped) && Physical(s.phys, s.owner) && Addressable(s.phys, frames) && 1 <= level <= 4
    ensures WalksFrom(s, mapped, gpa, level, frames)
  {
    hide HardwareWalk, Expected, PageOf;
    if level > 1 {
      HardwareFrom(s, mapped, gpa, level - 1, frames);
      HardwareUp(s, mapped, gpa, level, frames);
    } else if TableOf(PageOf(gpa), 1) in s.at {
      HardwareLeaf(s, mapped, gpa, frames);
    }
  }

  /** The processor, walking from the EPT pointer `__pa(pml4) | (3 << 3)`, reaches the leaf
      entry of a mapped page with full access, unless the address given for it makes the entry a misconfiguration,
      and takes a violation on every other page. */
  lemma HardwareAgrees(s: Memory, mapped: map<nat, nat>, gpa: nat, frames: nat)
    requires Tree(s, mapped) && Physical(s.phys, s.owner) && Addressable(s.phys, frames)
    ensures HardwareTranslate(s, 4096 * s.phys[s.at[ROOT]] + 0x18, gpa, frames) == Expected(mapped, PageOf(gpa), frames)
  {
    hide HardwareWalk, Expected, PageOf, HardwareTranslate;
    var length := 4;
    EptPointerFields(s, s.phys[s.at[ROOT]], gpa, length, frames);
    HardwareFrom(s, mapped, gpa, length, frames);
    IndexFollowsPath(gpa, length);
  }

  lemma EptPointerFields(s: Memory, frame: nat, gpa: nat, length: nat, frames: nat)
    requires frame < FRAMES && length == 4
    ensures HardwareTranslate(s, 4096 * frame + 0x18, gpa, frames) == HardwareWalk(s, frame, gpa, length, frames)
  {
    hide FrameField, HardwareWalk;
    EptPointerBits(frame);
  }

  lemma EptPointerBits(frame: nat)
    requires frame < FRAMES
    ensures (4096 * frame + 0x18) / 8 % 8 == 3 && FrameField(4096 * frame + 0x18) == frame
  {
    DivIs(4096 * frame + 0x18, 8, 512 * frame + 3, 0);
    DivIs(512 * frame + 3, 8, 64 * frame, 3);
    DivIs(4096 * frame + 0x18, 4096, frame, 0x18);
    DivIs(frame, FRAMES, 0, frame);
  }

  /** A missing table means no table below it on the path. */
  lemma {:induction false} NoPath(s: Memory, p: nat, level: nat)
    requires Closed(s) && 1 <= level <= 3 && TableOf(p, level) !in s.at
    ensures TableOf(p, 1) !in s.at
  {
    if level > 1 {
      if TableOf(p, level - 1) in s.at {
        PathUp(s, p, level - 1);
      }
      NoPath(s, p, level - 1);
    }
  }

  // ---------- How many leaf tables there are ----------

  lemma {:induction false} SameSize(f: map<nat, nat>, keys: set<nat>, values: set<nat>)
    requires keys <= f.Keys && (forall k | k in keys :: f[k] in values)
    requires forall v | v in values :: exists k :: k in keys && f[k] == v
    requires forall j, k | j in keys && k in keys && f[j] == f[k] :: j == k
    ensures |keys| == |values|
  {
    if k :| k in keys {
      forall v | v in values - {f[k]}
        ensures exists j :: j in keys - {k} && f[j] == v
      {
        var j :| j in keys && f[j] == v;
        assert j in keys - {k};
      }
      SameSize(f, keys - {k}, values - {f[k]});
    }
  }

  /** The blocks that are leaf tables. */
  ghost function LeafBlocks(s: Memory): set<nat> {
    set p | p in s.role && s.role[p].level == 1
  }

  /** Address bits 21-47 of the mapped pages. */
  ghost function LeafKeys(mapped: map<nat, nat>): set<nat> {
    set p | p in mapped :: Key(p, 1)
  }

  lemma LeafTableCount(s: Memory, mapped: map<nat, nat>)
    requires Tree(s, mapped) && Tight(s, mapped)
    ensures |LeafBlocks(s)| == |LeafKeys(mapped)|
  {
    var f := map p | p in s.role :: s.role[p].key;
    var blocks, keys := LeafBlocks(s), LeafKeys(mapped);
    forall k | k in keys
      ensures exists b :: b in blocks && f[b] == k
    {
      var p :| p in mapped && Key(p, 1) == k;
      assert s.at[TableOf(p, 1)] in blocks;
    }
    forall b | b in blocks
      ensures f[b] in keys
    {
      var p :| p in mapped && TableOf(p, 1) == s.role[b];
      assert Key(p, 1) in keys;
    }
    forall b, c | b in blocks && c in blocks && f[b] == f[c]
      ensures b == c
    {
      assert s.role[b] == s.role[c];
    }
    SameSize(f, blocks, keys);
  }

  // ---------- ept_free ----------

  /** The tables `ept_free` has not freed yet, once it has dealt with the tables of levels 3, 2
      and 1 whose keys are below `a`, `b` and `c`: they, and no other, are still in the heap. */
  ghost predicate Left(s: Memory, heap: Blocks, a: nat, b: nat, c: nat)
    requires Placed(s)
  {
    && (forall n | n in s.at :: s.at[n] in heap <==> Ahead(n, a, b, c))
    && (forall p | p in heap :: p in s.heap && heap[p] == s.heap[p])
  }

  ghost predicate Ahead(n: Node, a: nat, b: nat, c: nat) {
    match n.level
    case 1 => n.key >= c
    case 2 => n.key >= b
    case 3 => n.key >= a
    case _ => true
  }

  /** In directory `n`, with the leaf tables behind its first `k` entries gone. */
  ghost predicate InDirectory(s: Memory, heap: Blocks, a: nat, n: Node, k: nat)
    requires Placed(s)
  {
    Left(s, heap, a, n.key, 512 * n.key + k)
  }

  /** Before directory `b`, with everything under the directories before it gone. */
  ghost predicate BeforeDirectory(s: Memory, heap: Blocks, a: nat, b: nat)
    requires Placed(s)
  {
    Left(s, heap, a, b, 512 * b)
  }

  /** In table `n` of level 3, with the directories behind its first `j` entries gone. */
  ghost predicate InPointers(s: Memory, heap: Blocks, n: Node, j: nat)
    requires Placed(s)
  {
    BeforeDirectory(s, heap, n.key, 512 * n.key + j)
  }

  ghost predicate BeforePointers(s: Memory, heap: Blocks, a: nat)
    requires Placed(s)
  {
    BeforeDirectory(s, heap, a, 512 * a)
  }

  /** A table not yet passed can still be read, and tells which children there are. */
  lemma LeftRead(s: Memory, mapped: map<nat, nat>, heap: Blocks, a: nat, b: nat, c: nat, n: Node, i: nat)
    requires Tree(s, mapped) && Left(s, heap, a, b, c) && n in s.at && n.level >= 2 && i < 512
    requires Ahead(n, a, b, c)
    ensures s.at[n] in heap && |heap[s.at[n]]| == 1024
    ensures heap[s.at[n]][PAGE_OFFSET + i] == if Child(n, i) in s.at then s.at[Child(n, i)] else 0
    ensures Child(n, i) in s.at ==> s.at[Child(n, i)] > 0
  {
    ReadPointer(s, mapped, n, i);
  }

  /** So can its block be freed, with the size it was allocated with. */
  lemma LeftSize(s: Memory, mapped: map<nat, nat>, heap: Blocks, a: nat, b: nat, c: nat, n: Node)
    requires Tree(s, mapped) && Left(s, heap, a, b, c) && Ahead(n, a, b, c)
    ensures n in s.at ==> s.at[n] in heap && |heap[s.at[n]]| == WordsOf(n.level)
  {
  }

  /** One turn of the inner loop. */
  lemma DirectoryStep(s: Memory, mapped: map<nat, nat>, heap: Blocks, a: nat, n: Node, k: nat)
    requires Tree(s, mapped) && n in s.at && n.level == 2 && k < 512 && InDirectory(s, heap, a, n, k)
    ensures s.at[n] in heap && |heap[s.at[n]]| == 1024
    ensures var pt := heap[s.at[n]][PAGE_OFFSET + k];
            if pt == 0 then InDirectory(s, heap, a, n, k + 1)
            else pt in heap && |heap[pt]| == 512 && InDirectory(s, heap - {pt}, a, n, k + 1)
  {
    hide Left, Tree, Placed;
    PlacedTree(s, mapped);
    LeftSize(s, mapped, heap, a, n.key, 512 * n.key + k, Child(n, k));
    LeftRead(s, mapped, heap, a, n.key, 512 * n.key + k, n, k);
    Passed1(s, heap, a, n.key, 512 * n.key + k);
  }

  lemma Passed1(s: Memory, heap: Blocks, a: nat, b: nat, c: nat)
    requires Placed(s) && Left(s, heap, a, b, c)
    ensures Node(1, c) !in s.at ==> Left(s, heap, a, b, c + 1)
    ensures Node(1, c) in s.at ==> Left(s, heap - {s.at[Node(1, c)]}, a, b, c + 1)
  {
  }

  /** Releasing table `n` passes it and no other. */
  lemma LeftWithout(s: Memory, heap: Blocks, a: nat, b: nat, c: nat, a': nat, b': nat, c': nat, n: Node)
    requires Placed(s) && Left(s, heap, a, b, c) && n in s.at && !Ahead(n, a', b', c')
    requires forall m | m in s.at && m != n :: Ahead(m, a, b, c) <==> Ahead(m, a', b', c')
    ensures Left(s, heap - {s.at[n]}, a', b', c')
  {
    hide Ahead;
  }

  lemma LeftAlike(s: Memory, heap: Blocks, a: nat, b: nat, c: nat, a': nat, b': nat, c': nat)
    requires Placed(s) && Left(s, heap, a, b, c) && forall m | m in s.at :: Ahead(m, a, b, c) <==> Ahead(m, a', b', c')
    ensures Left(s, heap, a', b', c')
  {
    hide Ahead;
  }

  lemma DirectoryDone(s: Memory, mapped: map<nat, nat>, heap: Blocks, a: nat, n: Node)
    requires Tree(s, mapped) && n in s.at && n.level == 2 && InDirectory(s, heap, a, n, 512)
    ensures s.at[n] in heap && |heap[s.at[n]]| == 1024
    ensures BeforeDirectory(s, heap - {s.at[n]}, a, n.key + 1)
  {
    hide Tree, Left, Placed;
    PlacedTree(s, mapped);
    LeftSize(s, mapped, heap, a, n.key, 512 * n.key + 512, n);
    LeftWithout(s, heap, a, n.key, 512 * n.key + 512, a, n.key + 1, 512 * (n.key + 1), n);
  }

  /** Which tables lie under a given one. */
  lemma UnderTable(m: Node, k: nat)
    ensures Parent(m).key == k <==> 512 * k <= m.key < 512 * k + 512
  {
  }

  /** A missing directory has no leaf tables under it. */
  lemma DirectorySkipped(s: Memory, mapped: map<nat, nat>, heap: Blocks, a: nat, b: nat)
    requires Tree(s, mapped) && Node(2, b) !in s.at && BeforeDirectory(s, heap, a, b)
    ensures BeforeDirectory(s, heap, a, b + 1)
  {
    forall m | m in s.at && m.level == 1
      ensures !(512 * b <= m.key < 512 * b + 512)
    {
      UnderTable(m, b);
    }
  }

  /** One turn of the middle loop, up to the call that frees the directory. */
  lemma PointersStep(s: Memory, mapped: map<nat, nat>, heap: Blocks, n: Node, j: nat)
    requires Tree(s, mapped) && n in s.at && n.level == 3 && j < 512 && InPointers(s, heap, n, j)
    ensures s.at[n] in heap && |heap[s.at[n]]| == 1024
    ensures var pd := heap[s.at[n]][PAGE_OFFSET + j];
            if pd == 0 then InPointers(s, heap, n, j + 1)
            else Child(n, j) in s.at && s.at[Child(n, j)] == pd
  {
    hide Left, Tree, Placed;
    PlacedTree(s, mapped);
    LeftRead(s, mapped, heap, n.key, 512 * n.key + j, 512 * (512 * n.key + j), n, j);
    if Child(n, j) !in s.at {
      DirectorySkipped(s, mapped, heap, n.key, 512 * n.key + j);
    }
  }

  lemma PointersDone(s: Memory, mapped: map<nat, nat>, heap: Blocks, n: Node)
    requires Tree(s, mapped) && n in s.at && n.level == 3 && InPointers(s, heap, n, 512)
    ensures s.at[n] in heap && |heap[s.at[n]]| == 1024
    ensures BeforePointers(s, heap - {s.at[n]}, n.key + 1)
  {
    hide Tree, Left, Placed;
    PlacedTree(s, mapped);
    var b := 512 * n.key + 512;
    LeftSize(s, mapped, heap, n.key, b, 512 * b, n);
    LeftWithout(s, heap, n.key, b, 512 * b, n.key + 1, 512 * (n.key + 1), 512 * (512 * (n.key + 1)), n);
  }

  /** Nothing lies under a table of level 3 that does not exist. */
  lemma NoneUnder(s: Memory, a: nat, m: Node)
    requires Closed(s) && Node(3, a) !in s.at && m in s.at && 1 <= m.level <= 4
    ensures Ahead(m, a, 512 * a, 512 * (512 * a)) <==> Ahead(m, a + 1, 512 * (a + 1), 512 * (512 * (a + 1)))
  {
    UnderTable(m, a);
    UnderTable(Parent(m), a);
  }

  lemma LevelOf(s: Memory, m: Node)
    requires Placed(s) && m in s.at
    ensures 1 <= m.level <= 4
  {
  }

  lemma ClosedTree(s: Memory, mapped: map<nat, nat>)
    requires Tree(s, mapped)
    ensures Closed(s)
  {
  }

  /** A missing table of level 3 has nothing under it. */
  lemma PointersSkipped(s: Memory, mapped: map<nat, nat>, heap: Blocks, a: nat)
    requires Tree(s, mapped) && Node(3, a) !in s.at && BeforePointers(s, heap, a)
    ensures BeforePointers(s, heap, a + 1)
  {
    hide Tree, Left, Placed, Closed, Ahead;
    PlacedTree(s, mapped);
    ClosedTree(s, mapped);
    forall m | m in s.at
      ensures Ahead(m, a, 512 * a, 512 * (512 * a)) <==> Ahead(m, a + 1, 512 * (a + 1), 512 * (512 * (a + 1)))
    {
      LevelOf(s, m);
      NoneUnder(s, a, m);
    }
    LeftAlike(s, heap, a, 512 * a, 512 * (512 * a), a + 1, 512 * (a + 1), 512 * (512 * (a + 1)));
  }

  /** One turn of the outer loop, up to the call that frees what lies under the entry. */
  lemma RootStep(s: Memory, mapped: map<nat, nat>, heap: Blocks, i: nat)
    requires Tree(s, mapped) && i < 512 && BeforePointers(s, heap, i)
    ensures s.at[ROOT] in heap && |heap[s.at[ROOT]]| == 1024
    ensures var pdpt := heap[s.at[ROOT]][PAGE_OFFSET + i];
            if pdpt == 0 then BeforePointers(s, heap, i + 1)
            else Node(3, i) in s.at && s.at[Node(3, i)] == pdpt
  {
    LeftRead(s, mapped, heap, i, 512 * i, 512 * (512 * i), ROOT, i);
    assert Child(ROOT, i) == Node(3, i);
    if Node(3, i) !in s.at {
      PointersSkipped(s, mapped, heap, i);
    }
  }

  lemma UnderRoot(s: Memory, n: Node)
    requires Closed(s) && Placed(s) && n in s.at
    ensures n.level == 3 ==> n.key < 512
    ensures n.level == 2 ==> n.key < 512 * 512
    ensures n.level == 1 ==> n.key < 512 * (512 * 512)
  {
    if n.level == 3 {
      assert Parent(n) == ROOT;
    } else if n.level == 2 {
      assert Parent(Parent(n)) == ROOT;
    } else if n.level == 1 {
      assert Parent(Parent(Parent(n))) == ROOT;
    }
  }

  /** In the end only the root is left. */
  lemma RootDone(s: Memory, mapped: map<nat, nat>, heap: Blocks)
    requires Tree(s, mapped) && BeforePointers(s, heap, 512)
    ensures s.at[ROOT] in heap && |heap[s.at[ROOT]]| == 1024 && heap - {s.at[ROOT]} == map[]
  {
    forall p | p in heap
      ensures p == s.at[ROOT]
    {
      UnderRoot(s, s.role[p]);
      assert s.at[s.role[p]] == p;
    }
  }

  lemma FreeStart(s: Memory, mapped: map<nat, nat>)
    requires Sound(s, mapped)
    ensures Tree(s, mapped) && ROOT in s.at && Placed(s) && BeforePointers(s, s.heap, 0)
  {
  }

  lemma PlacedTree(s: Memory, mapped: map<nat, nat>)
    requires Tree(s, mapped)
    ensures Placed(s)
  {
  }
}
