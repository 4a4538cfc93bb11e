/** The memory the guest manages for itself: a free list threaded through the free pages,
    page tables built from them, and data pages. Pages are named by their frame number;
    the address of frame `f` is `4096 * f`, the same physical and virtual. */
module GuestTables {
  import opened Radix

  const FRAMES: nat := 0x100_0000_0000

  /** What a page is in use for. `Free(i)` is the i-th page of the free list, counted from its
      end; `Lost` is a table that a large page was installed over. */
  datatype Role = Free(i: nat) | Table(n: Node) | Data(v: nat) | Lost

  /** The pages and what they are used for: the free list (`stack`, head last), the tables
      (`at`), the frame behind each live virtual page (`data`), and the entries installed for
      pages (`small`) and for 2 MB ranges (`large`). */
  datatype State = State(
    heap: Blocks,
    stack: seq<nat>,
    at: map<Node, nat>,
    data: map<nat, nat>,
    role: map<nat, Role>,
    small: map<nat, nat>,
    large: map<nat, nat>)

  /** `phys | PTE_PRESENT | PTE_WRITE` */
  function Pte(f: nat): nat {
    4096 * f + 3
  }

  /** Every page has exactly one use, and every use its page. */
  ghost predicate Partition(s: State) {
    && s.heap.Keys == s.role.Keys
    && (forall f | f in s.role :: 0 < f < FRAMES && |s.heap[f]| == 512 && Used(s, f))
    && (forall i | 0 <= i < |s.stack| :: s.stack[i] in s.role && s.role[s.stack[i]] == Free(i))
    && (forall n | n in s.at :: 1 <= n.level <= 4 && s.at[n] in s.role && s.role[s.at[n]] == Table(n))
    && (forall v | v in s.data :: s.data[v] in s.role && s.role[s.data[v]] == Data(v))
  }

  ghost predicate Used(s: State, f: nat)
    requires f in s.role
  {
    match s.role[f]
    case Free(i) => i < |s.stack| && s.stack[i] == f
    case Table(n) => n in s.at && s.at[n] == f
    case Data(v) => v in s.data && s.data[v] == f
    case Lost => true
  }

  /** The address the list continues with below position `i`. */
  function Below(stack: seq<nat>, i: nat): nat
    requires i <= |stack|
  {
    if i == 0 then 0 else 4096 * stack[i - 1]
  }

  /** Each free page holds the address of the next one in its first word. */
  ghost predicate Chained(s: State)
    requires Partition(s)
  {
    forall i | 0 <= i < |s.stack| :: s.heap[s.stack[i]][0] == Below(s.stack, i)
  }

  /** The word entry `i` of table `n` should hold. */
  ghost function Word(s: State, n: Node, i: nat): nat
    requires n.level >= 1
  {
    var c := Child(n, i);
    if n.level >= 2 && c in s.at then Pte(s.at[c])
    else if n.level == 2 && c.key in s.large then s.large[c.key]
    else if n.level == 1 && c.key in s.small then s.small[c.key]
    else 0
  }

  ghost predicate Written(s: State)
    requires Partition(s)
  {
    forall n, i | n in s.at && 0 <= i < 512 :: s.heap[s.at[n]][i] == Word(s, n, i)
  }

  ghost predicate Closed(s: State) {
    && (forall n | n in s.at :: if n.level < 4 then Parent(n) in s.at else n == ROOT)
    && (forall p | p in s.small :: TableOf(p, 1) in s.at)
    && (forall k | k in s.large :: Parent(Node(1, k)) in s.at && Node(1, k) !in s.at && IsLarge(s.large[k]))
  }

  /** `PTE_PRESENT` and `PTE_PSE` set. */
  predicate IsLarge(pte: nat) {
    pte % 2 == 1 && pte / 128 % 2 == 1
  }

  ghost predicate Sound(s: State) {
    Partition(s) && Chained(s) && Written(s) && Closed(s)
  }

  // ---------- The free list as it lies in memory ----------

  /** Following first words from address `head` leads through the pages of `stack`, the last one
      first, and ends with 0. */
  ghost predicate ListIs(heap: Blocks, head: nat, stack: seq<nat>)
    decreases |stack|
  {
    if stack == [] then head == 0
    else
      var f := stack[|stack| - 1];
      && 0 < f < FRAMES && head == 4096 * f && f in heap && |heap[f]| == 512
      && ListIs(heap, heap[f][0], stack[..|stack| - 1])
  }

  lemma {:induction false} ListFrame(heap: Blocks, after: Blocks, head: nat, stack: seq<nat>)
    requires ListIs(heap, head, stack) && (forall f | f in stack && f in heap :: f in after && after[f] == heap[f])
    ensures ListIs(after, head, stack)
    decreases |stack|
  {
    if stack != [] {
      ListFrame(heap, after, heap[stack[|stack| - 1]][0], stack[..|stack| - 1]);
    }
  }

  lemma {:induction false} ListUpTo(s: State, i: nat)
    requires Partition(s) && Chained(s) && i <= |s.stack|
    ensures ListIs(s.heap, Below(s.stack, i), s.stack[..i])
  {
    if i > 0 {
      ListUpTo(s, i - 1);
      assert s.stack[..i][..i - 1] == s.stack[..i - 1];
    }
  }

  /** The free list in memory is the one the state speaks of, and holds no page in use. */
  lemma SoundList(s: State)
    requires Sound(s)
    ensures ListIs(s.heap, Below(s.stack, |s.stack|), s.stack)
    ensures forall f | f in s.stack :: f in s.role && s.role[f].Free?
  {
    hide Written, Closed;
    ListUpTo(s, |s.stack|);
    assert s.stack[..|s.stack|] == s.stack;
  }

  // ---------- Taking a page for a table ----------

  ghost predicate Empty(s: State, n: Node, i: nat) {
    && n in s.at && n.level >= 2 && i < 512 && s.stack != []
    && Child(n, i) !in s.at && (n.level == 2 ==> Child(n, i).key !in s.large)
  }

  /** The head of the free list. */
  function Head(s: State): nat
    requires s.stack != []
  {
    s.stack[|s.stack| - 1]
  }

  /** The head of the free list, zeroed, becomes the table behind entry `i`. */
  function Grown(s: State, n: Node, i: nat): State
    requires s.stack != [] && n in s.at && n.level >= 1 && i < 512
    requires s.at[n] in s.heap && |s.heap[s.at[n]]| == 512
  {
    var f, c := Head(s), Child(n, i);
    s.(heap := Put(s.heap[f := Zeroes(512)], s.at[n], i, Pte(f)),
       stack := s.stack[..|s.stack| - 1],
       at := s.at[c := f],
       role := s.role[f := Table(c)])
  }

  lemma GrownUsed(s: State, n: Node, i: nat, f: nat)
    requires Partition(s) && Empty(s, n, i) && f in s.role
    ensures Used(Grown(s, n, i), f)
  {
    assert Used(s, f) && s.role[Head(s)] == Free(|s.stack| - 1);
  }

  lemma GrownPartition(s: State, n: Node, i: nat)
    requires Partition(s) && Empty(s, n, i)
    ensures Partition(Grown(s, n, i))
  {
    var t := Grown(s, n, i);
    forall f | f in t.role
      ensures Used(t, f)
    {
      GrownUsed(s, n, i, f);
    }
    hide Used;
  }

  lemma GrownChained(s: State, n: Node, i: nat)
    requires Partition(s) && Chained(s) && Empty(s, n, i)
    ensures Partition(Grown(s, n, i)) && Chained(Grown(s, n, i))
  {
    hide Used;
    GrownPartition(s, n, i);
    var t := Grown(s, n, i);
    forall k | 0 <= k < |t.stack|
      ensures t.heap[t.stack[k]][0] == Below(t.stack, k)
    {
      assert t.stack[k] == s.stack[k] && s.role[s.stack[k]] == Free(k) && s.heap[s.stack[k]][0] == Below(s.stack, k);
    }
  }

  lemma GrownClosed(s: State, n: Node, i: nat)
    requires Partition(s) && Closed(s) && Empty(s, n, i)
    ensures Closed(Grown(s, n, i))
  {
    ParentOfChild(n, i);
  }

  /** The words of the other tables stay. */
  lemma GrownFrame(s: State, n: Node, i: nat, m: Node)
    requires Partition(s) && Empty(s, n, i) && m in s.at
    ensures var t := Grown(s, n, i);
            && t.at[m] == s.at[m] && s.at[m] != Head(s)
            && (m != n ==> t.heap[s.at[m]] == s.heap[s.at[m]])
            && (m == n ==> t.heap[s.at[m]] == s.heap[s.at[m]][i := Pte(Head(s))])
  {
  }

  lemma GrownWord(s: State, n: Node, i: nat, m: Node, j: nat)
    requires Partition(s) && Written(s) && Closed(s) && Empty(s, n, i)
    requires m in s.at && j < 512
    ensures var t := Grown(s, n, i);
            t.heap[t.at[m]][j] == Word(t, m, j)
  {
    hide Used;
    GrownFrame(s, n, i, m);
    assert s.heap[s.at[m]][j] == Word(s, m, j);
    ParentOfChild(n, i);
    ParentOfChild(m, j);
    if m.level >= 2 && Child(m, j) in s.at {
      GrownFrame(s, n, i, Child(m, j));
    }
  }

  /** The new table has no children, and nothing is mapped under it. */
  lemma GrownEmpty(s: State, n: Node, i: nat, j: nat)
    requires Partition(s) && Closed(s) && Empty(s, n, i) && j < 512
    ensures Word(Grown(s, n, i), Child(n, i), j) == 0
  {
    var c := Child(n, i);
    ParentOfChild(c, j);
    if n.level >= 3 {
      assert Child(c, j) !in s.at;
    }
    if n.level == 3 {
      assert Child(c, j).key !in s.large;
    }
    if n.level == 2 {
      assert Key(Child(c, j).key, 1) == Key(Child(c, j).key, 0) / 512;
      assert Child(c, j).key !in s.small;
    }
  }

  lemma GrownWritten(s: State, n: Node, i: nat)
    requires Partition(s) && Written(s) && Closed(s) && Empty(s, n, i)
    ensures Partition(Grown(s, n, i)) && Written(Grown(s, n, i))
  {
    GrownPartition(s, n, i);
    var t, c := Grown(s, n, i), Child(n, i);
    forall m, j | m in t.at && 0 <= j < 512
      ensures t.heap[t.at[m]][j] == Word(t, m, j)
    {
      if m == c {
        GrownEmpty(s, n, i, j);
      } else {
        GrownWord(s, n, i, m, j);
      }
    }
  }

  lemma GrownSound(s: State, n: Node, i: nat)
    requires Sound(s) && Empty(s, n, i)
    ensures Sound(Grown(s, n, i))
  {
    GrownChained(s, n, i);
    GrownWritten(s, n, i);
    GrownClosed(s, n, i);
  }

  // ---------- Storing entries ----------

  function SmallStored(s: State, p: nat, pte: nat): State
    requires TableOf(p, 1) in s.at && s.at[TableOf(p, 1)] in s.heap && |s.heap[s.at[TableOf(p, 1)]]| == 512
  {
    s.(heap := Put(s.heap, s.at[TableOf(p, 1)], p % 512, pte), small := s.small[p := pte])
  }

  lemma LeafSlot(p: nat, n: Node, i: nat)
    requires n.level == 1 && i < 512
    ensures Child(n, i).key == p <==> n == TableOf(p, 1) && i == p % 512
  {
    assert Key(p, 1) == Key(p, 0) / 512;
    ParentOfChild(n, i);
  }

  lemma SmallPartition(s: State, p: nat, pte: nat)
    requires Partition(s) && TableOf(p, 1) in s.at
    ensures Partition(SmallStored(s, p, pte))
  {
  }

  lemma SmallChained(s: State, p: nat, pte: nat)
    requires Partition(s) && Chained(s) && TableOf(p, 1) in s.at
    ensures Partition(SmallStored(s, p, pte)) && Chained(SmallStored(s, p, pte))
  {
    SmallPartition(s, p, pte);
  }

  lemma SmallWord(s: State, p: nat, pte: nat, m: Node, j: nat)
    requires Partition(s) && Written(s) && TableOf(p, 1) in s.at && m in s.at && j < 512
    ensures var t := SmallStored(s, p, pte); t.heap[t.at[m]][j] == Word(t, m, j)
  {
    assert s.heap[s.at[m]][j] == Word(s, m, j);
    if m.level == 1 {
      LeafSlot(p, m, j);
    }
  }

  /** Installing a small page sets the entry of that page and of no other. */
  lemma SmallSound(s: State, p: nat, pte: nat)
    requires Sound(s) && TableOf(p, 1) in s.at
    ensures s.at[TableOf(p, 1)] in s.heap && |s.heap[s.at[TableOf(p, 1)]]| == 512
    ensures Sound(SmallStored(s, p, pte))
  {
    var t := SmallStored(s, p, pte);
    SmallChained(s, p, pte);
    forall m, j | m in t.at && 0 <= j < 512
      ensures t.heap[t.at[m]][j] == Word(t, m, j)
    {
      SmallWord(s, p, pte, m, j);
    }
  }

  /** The entry for a 2 MB range goes over whatever table was there, which is lost. */
  function LargeStored(s: State, k: nat, pte: nat): State
    requires Parent(Node(1, k)) in s.at
    requires s.at[Parent(Node(1, k))] in s.heap && |s.heap[s.at[Parent(Node(1, k))]]| == 512
  {
    var n := Node(1, k);
    s.(heap := Put(s.heap, s.at[Parent(n)], k % 512, pte),
       at := s.at - {n},
       role := if n in s.at then s.role[s.at[n] := Lost] else s.role,
       small := map q | q in s.small && Key(q, 1) != k :: s.small[q],
       large := s.large[k := pte])
  }

  lemma LargePartition(s: State, k: nat, pte: nat)
    requires Partition(s) && Parent(Node(1, k)) in s.at
    ensures Partition(LargeStored(s, k, pte))
  {
    var t := LargeStored(s, k, pte);
    forall f | f in t.role
      ensures 0 < f < FRAMES && |t.heap[f]| == 512 && Used(t, f)
    {
      assert Used(s, f);
    }
  }

  lemma LargeChained(s: State, k: nat, pte: nat)
    requires Partition(s) && Chained(s) && Parent(Node(1, k)) in s.at
    ensures Partition(LargeStored(s, k, pte)) && Chained(LargeStored(s, k, pte))
  {
    LargePartition(s, k, pte);
  }

  lemma LargeClosed(s: State, k: nat, pte: nat)
    requires Partition(s) && Closed(s) && Parent(Node(1, k)) in s.at && IsLarge(pte)
    ensures Closed(LargeStored(s, k, pte))
  {
    hide Partition, IsLarge;
    LargeRoom(s, k);
    var t := LargeStored(s, k, pte);
    forall p | p in t.small
      ensures TableOf(p, 1) in t.at
    {
      assert TableOf(p, 1) in s.at;
    }
    forall n | n in t.at
      ensures if n.level < 4 then Parent(n) in t.at else n == ROOT
    {
      LevelOf(s, n);
    }
  }

  lemma LargeRoom(s: State, k: nat)
    requires Partition(s) && Parent(Node(1, k)) in s.at
    ensures s.at[Parent(Node(1, k))] in s.heap && |s.heap[s.at[Parent(Node(1, k))]]| == 512
  {
  }

  lemma LevelOf(s: State, n: Node)
    requires Partition(s) && n in s.at
    ensures 1 <= n.level <= 4
  {
  }

  lemma LargeWord(s: State, k: nat, pte: nat, m: Node, j: nat)
    requires Partition(s) && Written(s) && Parent(Node(1, k)) in s.at
    requires m in s.at && m != Node(1, k) && j < 512
    ensures var t := LargeStored(s, k, pte); t.heap[t.at[m]][j] == Word(t, m, j)
  {
    assert s.heap[s.at[m]][j] == Word(s, m, j);
    ParentOfChild(m, j);
    if m.level == 1 {
      LeafSlot(Child(m, j).key, m, j);
    }
  }

  lemma LargeSound(s: State, k: nat, pte: nat)
    requires Sound(s) && Parent(Node(1, k)) in s.at && IsLarge(pte)
    ensures s.at[Parent(Node(1, k))] in s.heap && |s.heap[s.at[Parent(Node(1, k))]]| == 512
    ensures Sound(LargeStored(s, k, pte))
  {
    var t := LargeStored(s, k, pte);
    LargeChained(s, k, pte);
    LargeClosed(s, k, pte);
    forall m, j | m in t.at && 0 <= j < 512
      ensures t.heap[t.at[m]][j] == Word(t, m, j)
    {
      LargeWord(s, k, pte, m, j);
    }
  }

  // ---------- Data pages ----------

  /** The head of the free list becomes the page behind virtual page `v`. */
  function Taken(s: State, v: nat): State
    requires s.stack != []
  {
    s.(stack := s.stack[..|s.stack| - 1], data := s.data[v := Head(s)], role := s.role[Head(s) := Data(v)])
  }

  lemma TakenSound(s: State, v: nat)
    requires Sound(s) && s.stack != [] && v !in s.data
    ensures Sound(Taken(s, v))
  {
    TakenChained(s, v);
    SameTables(s, Taken(s, v));
  }

  lemma TakenChained(s: State, v: nat)
    requires Partition(s) && Chained(s) && s.stack != [] && v !in s.data
    ensures Partition(Taken(s, v)) && Chained(Taken(s, v))
  {
    TakenPartition(s, v);
  }

  /** A step that leaves the tables and their words alone leaves every entry as it should be. */
  lemma SameTables(s: State, t: State)
    requires Partition(s) && Written(s) && Closed(s) && Partition(t)
    requires t.at == s.at && t.small == s.small && t.large == s.large
    requires forall n | n in s.at :: t.heap[s.at[n]] == s.heap[s.at[n]]
    ensures Written(t) && Closed(t)
  {
    forall n, i | n in t.at && 0 <= i < 512
      ensures t.heap[t.at[n]][i] == Word(t, n, i)
    {
      assert s.heap[s.at[n]][i] == Word(s, n, i);
    }
  }

  lemma TakenPartition(s: State, v: nat)
    requires Partition(s) && s.stack != [] && v !in s.data
    ensures Partition(Taken(s, v))
  {
    var t := Taken(s, v);
    forall f | f in t.role
      ensures 0 < f < FRAMES && |t.heap[f]| == 512 && Used(t, f)
    {
      assert Used(s, f);
    }
  }

  /** `free_page` on the page behind `v`. */
  function Freed(s: State, v: nat): State
    requires v in s.data && s.data[v] in s.heap && |s.heap[s.data[v]]| == 512
  {
    var f := s.data[v];
    s.(heap := Put(s.heap, f, 0, Below(s.stack, |s.stack|)),
       stack := s.stack + [f],
       data := s.data - {v},
       role := s.role[f := Free(|s.stack|)])
  }

  lemma FreedPartition(s: State, v: nat)
    requires Partition(s) && v in s.data
    ensures Partition(Freed(s, v))
  {
  }

  lemma FreedChained(s: State, v: nat)
    requires Partition(s) && Chained(s) && v in s.data
    ensures Partition(Freed(s, v)) && Chained(Freed(s, v))
  {
    FreedPartition(s, v);
  }

  lemma FreedSound(s: State, v: nat)
    requires Sound(s) && v in s.data
    ensures s.data[v] in s.heap && |s.heap[s.data[v]]| == 512 && Sound(Freed(s, v))
  {
    FreedChained(s, v);
    SameTables(s, Freed(s, v));
  }

  /** A store into a data page. */
  function Scribbled(s: State, v: nat, i: nat, w: nat): State
    requires v in s.data && s.data[v] in s.heap && i < |s.heap[s.data[v]]|
  {
    s.(heap := Put(s.heap, s.data[v], i, w))
  }

  lemma ScribbledPartition(s: State, v: nat, i: nat, w: nat)
    requires Partition(s) && v in s.data && i < 512
    ensures Partition(Scribbled(s, v, i, w))
  {
  }

  lemma ScribbledSound(s: State, v: nat, i: nat, w: nat)
    requires Sound(s) && v in s.data && i < 512
    ensures s.data[v] in s.heap && |s.heap[s.data[v]]| == 512 && Sound(Scribbled(s, v, i, w))
  {
    ScribbledPartition(s, v, i, w);
    SameTables(s, Scribbled(s, v, i, w));
  }

  // ---------- Walking and installing ----------

  /** No page has dropped out of use. */
  ghost predicate NoneLost(s: State) {
    forall f | f in s.role :: s.role[f] != Lost
  }

  /** The same pages are under management, and none more is lost. */
  ghost predicate SamePages(s: State, t: State) {
    t.role.Keys == s.role.Keys && (NoneLost(s) ==> NoneLost(t))
  }

  /** The entry in force for page `p`, 0 when there is none. */
  ghost function Lookup(s: State, p: nat): nat {
    if Key(p, 1) in s.large then s.large[Key(p, 1)]
    else if p in s.small then s.small[p]
    else 0
  }

  /** Tables of levels 3 down to `level` still missing on the path of `p`. */
  ghost function Missing(tables: set<Node>, p: nat, level: nat): nat
    requires level <= 4
    decreases 4 - level
  {
    if level == 4 then 0
    else (if TableOf(p, level) in tables then 0 else 1) + Missing(tables, p, level + 1)
  }

  /** What the code reads at entry `i` of table `n`, and that it can make a table there. */
  ghost predicate Ready(s: State, n: Node, i: nat) {
    && n in s.at && n.level >= 2 && i < 512
    && s.at[n] in s.heap && |s.heap[s.at[n]]| == 512
    && (if Child(n, i) in s.at
        then s.at[Child(n, i)] < FRAMES && s.heap[s.at[n]][i] == Pte(s.at[Child(n, i)])
        else s.heap[s.at[n]][i] == 0 && HeadReady(s))
  }

  /** The free list is not empty, and its head says how it continues. */
  ghost predicate HeadReady(s: State) {
    && s.stack != [] && Head(s) in s.heap && |s.heap[Head(s)]| == 512 && 0 < Head(s) < FRAMES
    && s.heap[Head(s)][0] == Below(s.stack, |s.stack| - 1)
  }

  lemma IsHeadReady(s: State)
    requires Sound(s) && s.stack != []
    ensures HeadReady(s)
  {
  }

  lemma IsReady(s: State, n: Node, i: nat)
    requires Sound(s) && n in s.at && n.level >= 2 && i < 512
    requires Child(n, i) in s.at || Empty(s, n, i)
    ensures Ready(s, n, i)
  {
    assert s.heap[s.at[n]][i] == Word(s, n, i);
    if Child(n, i) !in s.at {
      IsHeadReady(s);
    }
  }

  function Filled(s: State, n: Node, i: nat): State
    requires Ready(s, n, i)
  {
    if Child(n, i) in s.at then s else Grown(s, n, i)
  }

  lemma FilledSound(s: State, n: Node, i: nat)
    requires Sound(s) && n in s.at && n.level >= 2 && i < 512
    requires Child(n, i) in s.at || Empty(s, n, i)
    ensures Ready(s, n, i) && Sound(Filled(s, n, i))
  {
    IsReady(s, n, i);
    if Child(n, i) !in s.at {
      GrownSound(s, n, i);
    }
  }

  /** Filling an entry changes nothing but the tables and the free list. */
  lemma FilledFrame(s: State, n: Node, i: nat)
    requires Ready(s, n, i)
    ensures var t := Filled(s, n, i);
            && t.data == s.data && t.small == s.small && t.large == s.large
            && t.at.Keys == s.at.Keys + {Child(n, i)} && (forall m | m in s.at :: t.at[m] == s.at[m])
            && |t.stack| == |s.stack| - (if Child(n, i) in s.at then 0 else 1)
  {
  }

  lemma FilledPages(s: State, n: Node, i: nat)
    requires Sound(s) && Ready(s, n, i)
    ensures SamePages(s, Filled(s, n, i))
  {
    hide Chained, Written, Closed, Used;
  }

  /** The path of `p` can be built down to `level`: enough pages, and no large page in the way. */
  ghost predicate Buildable(s: State, p: nat, level: nat)
    requires level <= 4
  {
    && ROOT in s.at && p < PAGES && |s.stack| >= Missing(s.at.Keys, p, level)
    && (level <= 1 ==> Key(p, 1) !in s.large)
  }

  /** `t` is `s` with the tables of levels 3 down to `level` on the path of `p` added. */
  ghost predicate Deeper(s: State, t: State, p: nat, level: nat)
    requires level <= 4
  {
    && TableOf(p, level) in t.at && SamePages(s, t)
    && t.data == s.data && t.small == s.small && t.large == s.large
    && |t.stack| == |s.stack| - Missing(s.at.Keys, p, level)
    && (forall n | n in s.at :: n in t.at && t.at[n] == s.at[n])
    && (forall n | n in t.at && n !in s.at :: level <= n.level <= 3 && n == TableOf(p, n.level))
  }

  lemma DeeperStep(s: State, u: State, p: nat, level: nat, i: nat)
    requires Sound(u) && 1 <= level <= 3 && Buildable(s, p, level) && Deeper(s, u, p, level + 1)
    requires i < 512 && Child(TableOf(p, level + 1), i) == TableOf(p, level)
    ensures var n := TableOf(p, level + 1);
            Ready(u, n, i) && Sound(Filled(u, n, i)) && Deeper(s, Filled(u, n, i), p, level)
  {
    hide Sound, Ready, Filled, Key;
    var n := TableOf(p, level + 1);
    assert TableOf(p, level) in u.at <==> TableOf(p, level) in s.at;
    if TableOf(p, level) !in u.at {
      DeeperEmpty(s, u, p, level, i);
    }
    FilledSound(u, n, i);
    FilledFrame(u, n, i);
    FilledPages(u, n, i);
  }

  lemma DeeperEmpty(s: State, u: State, p: nat, level: nat, i: nat)
    requires Sound(u) && 1 <= level <= 3 && Buildable(s, p, level) && Deeper(s, u, p, level + 1)
    requires i < 512 && Child(TableOf(p, level + 1), i) == TableOf(p, level)
    requires TableOf(p, level) !in u.at
    ensures Empty(u, TableOf(p, level + 1), i)
  {
    hide Sound;
    assert Missing(s.at.Keys, p, level) == 1 + Missing(s.at.Keys, p, level + 1);
  }

  /** The state once the tables of levels 3 down to `level` on the path of `virt` exist. */
  ghost function Descended(s: State, virt: nat, level: nat): State
    requires 1 <= level <= 4
    decreases 4 - level
  {
    if level == 4 then s
    else
      var u, n, i := Descended(s, virt, level + 1), TableOf(PageOf(virt), level + 1), Index(virt, level + 1);
      if Ready(u, n, i) then Filled(u, n, i) else u
  }

  lemma {:induction false} DescendedSound(s: State, virt: nat, level: nat)
    requires Sound(s) && 1 <= level <= 4 && Buildable(s, PageOf(virt), level)
    ensures Sound(Descended(s, virt, level)) && Deeper(s, Descended(s, virt, level), PageOf(virt), level)
    decreases 4 - level
  {
    hide Sound, Filled, PageOf, Ready, Deeper, Index, Buildable, TableOf;
    if level == 4 {
      DeeperNot(s, virt);
    } else {
      BuildableAbove(s, PageOf(virt), level);
      DescendedSound(s, virt, level + 1);
      DescendedStep(s, virt, level);
    }
  }

  /** One step down fills the entry the code computes. */
  lemma DescendedStep(s: State, virt: nat, level: nat)
    requires 1 <= level <= 3 && Buildable(s, PageOf(virt), level) && Sound(Descended(s, virt, level + 1))
    requires Deeper(s, Descended(s, virt, level + 1), PageOf(virt), level + 1)
    ensures var u, n, i := Descended(s, virt, level + 1), TableOf(PageOf(virt), level + 1), Index(virt, level + 1);
            && Ready(u, n, i) && Child(n, i) == TableOf(PageOf(virt), level)
            && Descended(s, virt, level) == Filled(u, n, i)
            && Sound(Filled(u, n, i)) && Deeper(s, Filled(u, n, i), PageOf(virt), level)
  {
    hide Sound, Filled, PageOf, Ready, Deeper, Index, Buildable, TableOf;
    IndexFollowsPath(virt, level + 1);
    DeeperStep(s, Descended(s, virt, level + 1), PageOf(virt), level, Index(virt, level + 1));
  }

  lemma DeeperNot(s: State, virt: nat)
    requires Buildable(s, PageOf(virt), 4)
    ensures Deeper(s, s, PageOf(virt), 4)
  {
    IndexFollowsPath(virt, 4);
  }

  lemma BuildableAbove(s: State, p: nat, level: nat)
    requires level <= 3 && Buildable(s, p, level)
    ensures Buildable(s, p, level + 1)
  {
  }

  ghost predicate HasTable(s: State, n: Node) {
    n in s.at && s.at[n] in s.heap && |s.heap[s.at[n]]| == 512
  }

  /** `install_pte` */
  ghost function Installed(s: State, virt: nat, level: nat, pte: nat): State
    requires 1 <= level <= 2
  {
    var u, p := Descended(s, virt, level), PageOf(virt);
    if level == 1 && HasTable(u, TableOf(p, 1)) then SmallStored(u, p, pte)
    else if level == 2 && HasTable(u, Parent(Node(1, Key(p, 1)))) then LargeStored(u, Key(p, 1), pte)
    else u
  }

  lemma DeeperTable(s: State, t: State, p: nat, level: nat)
    requires Sound(t) && 1 <= level <= 4 && Deeper(s, t, p, level)
    ensures HasTable(t, TableOf(p, level))
    ensures level == 2 ==> TableOf(p, level) == Parent(Node(1, Key(p, 1)))
  {
  }

  /** Page `q` is served by the entry installed for page `p` at `level`. */
  predicate Covers(p: nat, level: nat, q: nat) {
    if level == 1 then q == p else Key(q, 1) == Key(p, 1)
  }

  /** The entry is in force for the pages it covers, and every other page keeps its entry. */
  ghost predicate EntrySet(s: State, t: State, p: nat, level: nat, pte: nat) {
    forall q: nat :: Lookup(t, q) == if Covers(p, level, q) then pte else Lookup(s, q)
  }

  lemma SmallSets(s: State, p: nat, pte: nat)
    requires HasTable(s, TableOf(p, 1)) && Key(p, 1) !in s.large
    ensures EntrySet(s, SmallStored(s, p, pte), p, 1, pte)
  {
  }

  lemma LargeSets(s: State, p: nat, pte: nat)
    requires HasTable(s, Parent(Node(1, Key(p, 1))))
    ensures EntrySet(s, LargeStored(s, Key(p, 1), pte), p, 2, pte)
  {
  }

  lemma SameView(s: State, u: State, t: State, p: nat, level: nat, pte: nat)
    requires u.small == s.small && u.large == s.large && EntrySet(u, t, p, level, pte)
    ensures EntrySet(s, t, p, level, pte)
  {
    assert forall q: nat :: Lookup(u, q) == Lookup(s, q);
  }

  lemma InstalledSets(s: State, virt: nat, level: nat, pte: nat)
    requires 1 <= level <= 2 && Sound(s) && Buildable(s, PageOf(virt), level)
    ensures EntrySet(s, Installed(s, virt, level, pte), PageOf(virt), level, pte)
  {
    hide Sound, PageOf, SmallStored, LargeStored, EntrySet, Key;
    var u, p := Descended(s, virt, level), PageOf(virt);
    DescendedSound(s, virt, level);
    DeeperTable(s, u, p, level);
    if level == 1 {
      SmallSets(u, p, pte);
    } else {
      LargeSets(u, p, pte);
    }
    SameView(s, u, Installed(s, virt, level, pte), p, level, pte);
  }

  lemma InstalledSound(s: State, virt: nat, level: nat, pte: nat)
    requires 1 <= level <= 2 && Sound(s) && Buildable(s, PageOf(virt), level) && (level == 2 ==> IsLarge(pte))
    ensures Sound(Installed(s, virt, level, pte))
  {
    hide Sound, PageOf, Buildable, Deeper, LargeStored, SmallStored, IsLarge;
    DescendedSound(s, virt, level);
    var u := Descended(s, virt, level);
    DeeperTable(s, u, PageOf(virt), level);
    if level == 1 {
      SmallSound(u, PageOf(virt), pte);
    } else {
      LargeSound(u, Key(PageOf(virt), 1), pte);
    }
  }

  /** Tables of levels 3 down to `level` on the path of `p`. */
  function Path(p: nat, level: nat): set<Node> {
    if level == 1 then {TableOf(p, 1), TableOf(p, 2), TableOf(p, 3)} else {TableOf(p, 2), TableOf(p, 3)}
  }

  /** What else `install_pte` does: it takes exactly the missing tables from the free list. */
  ghost predicate Took(s: State, t: State, p: nat, level: nat)
    requires level <= 4
  {
    && t.data == s.data && |t.stack| == |s.stack| - Missing(s.at.Keys, p, level)
    && t.at.Keys == s.at.Keys + Path(p, level) - (if level == 1 then {} else {TableOf(p, 1)})
    && (forall n | n in s.at && n in t.at :: t.at[n] == s.at[n])
    && (level == 1 ==> t.large == s.large)
  }

  lemma InstalledTook(s: State, virt: nat, level: nat, pte: nat)
    requires 1 <= level <= 2 && Sound(s) && Buildable(s, PageOf(virt), level)
    ensures Took(s, Installed(s, virt, level, pte), PageOf(virt), level)
  {
    hide Sound, PageOf, Buildable;
    DescendedSound(s, virt, level);
    DeeperTable(s, Descended(s, virt, level), PageOf(virt), level);
    PathAbove(Descended(s, virt, level), PageOf(virt), level);
    KeysOfPath(s, Descended(s, virt, level), PageOf(virt), level);
  }

  lemma LargePages(s: State, k: nat, pte: nat)
    requires Sound(s) && Parent(Node(1, k)) in s.at
    requires s.at[Parent(Node(1, k))] in s.heap && |s.heap[s.at[Parent(Node(1, k))]]| == 512
    ensures LargeStored(s, k, pte).role.Keys == s.role.Keys
    ensures Node(1, k) !in s.at ==> LargeStored(s, k, pte).role == s.role
  {
  }

  lemma InstalledPages(s: State, virt: nat, level: nat, pte: nat)
    requires 1 <= level <= 2 && Sound(s) && Buildable(s, PageOf(virt), level)
    requires level == 2 ==> TableOf(PageOf(virt), 1) !in s.at
    ensures SamePages(s, Installed(s, virt, level, pte))
  {
    hide Sound, PageOf, Buildable, LargeStored;
    DescendedSound(s, virt, level);
    var u := Descended(s, virt, level);
    DeeperTable(s, u, PageOf(virt), level);
    if level == 2 {
      LargePages(u, Key(PageOf(virt), 1), pte);
    }
  }

  /** A large page drops a page out of use exactly if it goes over a table of small ones. */
  lemma LargeLosesTable(s: State, virt: nat, pte: nat)
    requires Sound(s) && NoneLost(s) && Buildable(s, PageOf(virt), 2)
    ensures NoneLost(Installed(s, virt, 2, pte)) <==> TableOf(PageOf(virt), 1) !in s.at
  {
    hide Sound, PageOf, Buildable, Deeper, Descended;
    var p, u := PageOf(virt), Descended(s, virt, 2);
    if TableOf(p, 1) !in s.at {
      InstalledPages(s, virt, 2, pte);
    } else {
      DescendedSound(s, virt, 2);
      DeeperTable(s, u, p, 2);
      DeeperKeeps(s, u, p, 2, TableOf(p, 1));
      TableHeld(u, TableOf(p, 1));
      assert Installed(s, virt, 2, pte).role[u.at[TableOf(p, 1)]] == Lost;
    }
  }

  lemma DeeperKeeps(s: State, t: State, p: nat, level: nat, n: Node)
    requires level <= 4 && Deeper(s, t, p, level) && n in s.at
    ensures n in t.at
  {
  }

  lemma TableHeld(s: State, n: Node)
    requires Sound(s) && n in s.at
    ensures s.at[n] in s.role
  {
  }

  /** On its way down to `l` the code comes to an entry without a table and an empty free list:
      `alloc_page` returns 0, and page 0 is taken for a table. */
  ghost predicate DryAt(s: State, virt: nat, l: nat)
    requires 2 <= l <= 4
  {
    && Buildable(s, PageOf(virt), l)
    && var u := Descended(s, virt, l); u.stack == [] && TableOf(PageOf(virt), l - 1) !in u.at
  }

  /** That happens exactly if there are fewer free pages than tables missing. */
  lemma RunsDry(s: State, virt: nat, level: nat)
    requires Sound(s) && ROOT in s.at && 1 <= level <= 4 && (level == 1 ==> Key(PageOf(virt), 1) !in s.large)
    ensures (exists l | level < l <= 4 :: DryAt(s, virt, l)) <==> |s.stack| < Missing(s.at.Keys, PageOf(virt), level)
  {
    hide Sound, PageOf, DryAt;
    if |s.stack| < Missing(s.at.Keys, PageOf(virt), level) {
      var l := FindsDry(s, virt, level);
    }
    forall l | level < l <= 4 && DryAt(s, virt, l)
      ensures |s.stack| < Missing(s.at.Keys, PageOf(virt), level)
    {
      DryIsShort(s, virt, l);
      MissingMore(s.at.Keys, PageOf(virt), level, l - 1);
    }
  }

  lemma {:induction false} FindsDry(s: State, virt: nat, level: nat) returns (l: nat)
    requires Sound(s) && ROOT in s.at && 1 <= level <= 4 && |s.stack| < Missing(s.at.Keys, PageOf(virt), level)
    ensures level < l <= 4 && DryAt(s, virt, l)
    decreases 4 - level
  {
    hide Sound, PageOf, TableOf, Descended;
    if |s.stack| < Missing(s.at.Keys, PageOf(virt), level + 1) {
      l := FindsDry(s, virt, level + 1);
    } else {
      l := level + 1;
      PageInRange(virt);
      DescendedSound(s, virt, l);
      NotYetBuilt(s, Descended(s, virt, l), PageOf(virt), l);
    }
  }

  lemma PageInRange(virt: nat)
    ensures PageOf(virt) < PAGES
  {
  }

  lemma NotYetBuilt(s: State, t: State, p: nat, l: nat)
    requires 2 <= l <= 4 && Deeper(s, t, p, l) && TableOf(p, l - 1) !in s.at
    ensures TableOf(p, l - 1) !in t.at && |t.stack| == |s.stack| - Missing(s.at.Keys, p, l)
  {
  }

  lemma DryIsShort(s: State, virt: nat, l: nat)
    requires Sound(s) && 2 <= l <= 4 && DryAt(s, virt, l)
    ensures |s.stack| < Missing(s.at.Keys, PageOf(virt), l - 1)
  {
    hide Sound, PageOf, TableOf, Descended;
    DescendedSound(s, virt, l);
  }

  lemma {:induction false} MissingMore(tables: set<Node>, p: nat, level: nat, l: nat)
    requires level <= l <= 4
    ensures Missing(tables, p, level) >= Missing(tables, p, l)
    decreases l - level
  {
    if level < l {
      MissingMore(tables, p, level + 1, l);
    }
  }

  lemma ParentOnPath(s: State, p: nat, level: nat)
    requires Sound(s) && 1 <= level <= 3 && TableOf(p, level) in s.at
    ensures TableOf(p, level + 1) in s.at
  {
    assert Parent(TableOf(p, level)) == TableOf(p, level + 1);
  }

  lemma PathAbove(s: State, p: nat, level: nat)
    requires Sound(s) && 1 <= level <= 2 && TableOf(p, level) in s.at
    ensures Path(p, level) <= s.at.Keys
  {
    hide Sound, Key;
    ParentOnPath(s, p, level);
    if level == 1 {
      ParentOnPath(s, p, 2);
    }
  }

  lemma KeysOfPath(s: State, t: State, p: nat, level: nat)
    requires 1 <= level <= 2 && Deeper(s, t, p, level) && Path(p, level) <= t.at.Keys
    ensures t.at.Keys == s.at.Keys + Path(p, level)
  {
    hide Key;
    forall n | n in t.at && n !in s.at
      ensures n in Path(p, level)
    {
      assert n.level == 1 || n.level == 2 || n.level == 3;
    }
  }

  lemma {:induction false} BuildableTo(s: State, p: nat, level: nat, l: nat)
    requires level <= l <= 4 && Buildable(s, p, level)
    ensures Buildable(s, p, l)
    decreases l - level
  {
    if level < l {
      BuildableAbove(s, p, level);
      BuildableTo(s, p, level + 1, l);
    }
  }

  lemma SlotOnPath(virt: nat, level: nat)
    requires 1 <= level <= 4
    ensures Index(virt, level) == Key(PageOf(virt), level - 1) % 512
  {
    KeyIsShift(virt, level - 1);
    CutStep(Shifted(virt, level - 1), level - 1);
  }

  /** The last store of `install_pte`. */
  lemma InstalledIs(s: State, virt: nat, level: nat, pte: nat)
    requires 1 <= level <= 2 && Sound(s) && Buildable(s, PageOf(virt), level)
    ensures var u, n, t := Descended(s, virt, level), TableOf(PageOf(virt), level), Installed(s, virt, level, pte);
            && n in u.at && u.at[n] in u.heap && |u.heap[u.at[n]]| == 512
            && t.heap == Put(u.heap, u.at[n], Index(virt, level), pte) && t.stack == u.stack
  {
    hide Sound, PageOf, Buildable, Index;
    DescendedSound(s, virt, level);
    DeeperTable(s, Descended(s, virt, level), PageOf(virt), level);
    SlotOnPath(virt, level);
  }

  lemma RootKept(s: State, t: State, p: nat, level: nat)
    requires 1 <= level <= 2 && Took(s, t, p, level) && ROOT in s.at
    ensures ROOT in t.at && t.at[ROOT] == s.at[ROOT]
  {
  }

  lemma DescendedTop(s: State, virt: nat)
    ensures Descended(s, virt, 4) == s && TableOf(PageOf(virt), 4) == ROOT
  {
    IndexFollowsPath(virt, 4);
  }

  /** What an entry holds. */
  lemma ReadEntry(s: State, n: Node, i: nat)
    requires Sound(s) && n in s.at && n.level >= 2 && i < 512
    ensures HasTable(s, n) && s.at[n] < FRAMES && s.heap[s.at[n]][i] == Word(s, n, i)
    ensures Child(n, i) in s.at ==> s.at[Child(n, i)] < FRAMES
    ensures Child(n, i).key in s.large ==> IsLarge(s.large[Child(n, i).key])
  {
  }

  /** What `get_pte` finds at an upper level, and what it concludes. */
  lemma WalkStep(s: State, virt: nat, level: nat)
    requires Sound(s) && 2 <= level <= 4 && TableOf(PageOf(virt), level) in s.at
    ensures var p, n := PageOf(virt), TableOf(PageOf(virt), level);
            && s.at[n] in s.heap && |s.heap[s.at[n]]| == 512 && s.at[n] < FRAMES
            && var w := s.heap[s.at[n]][Index(virt, level)];
               if TableOf(p, level - 1) in s.at then
                 && w == Pte(s.at[TableOf(p, level - 1)]) && s.at[TableOf(p, level - 1)] < FRAMES
               else if level == 2 && Key(p, 1) in s.large then
                 && w == s.large[Key(p, 1)] == Lookup(s, p) && IsLarge(w)
               else w == 0 && Lookup(s, p) == 0
  {
    hide Sound, PageOf, Index, IsLarge, Key;
    var p, n, i := PageOf(virt), TableOf(PageOf(virt), level), Index(virt, level);
    IndexFollowsPath(virt, level);
    ReadEntry(s, n, i);
    if p in s.small || (level > 2 && Key(p, 1) in s.large) {
      MappedHasPath(s, p, level - 1);
    }
  }

  /** Whatever is mapped has its tables, down to the one that holds its entry. */
  lemma {:induction false} MappedHasPath(s: State, p: nat, level: nat)
    requires Sound(s) && 1 <= level <= 3 && (p in s.small || (level >= 2 && Key(p, 1) in s.large))
    ensures TableOf(p, level) in s.at
  {
    hide Sound, Key;
    if level == 1 || (level == 2 && p !in s.small) {
      EntryHasTable(s, p);
    } else {
      MappedHasPath(s, p, level - 1);
      ParentOnPath(s, p, level - 1);
    }
  }

  lemma EntryHasTable(s: State, p: nat)
    requires Sound(s)
    ensures p in s.small ==> TableOf(p, 1) in s.at
    ensures Key(p, 1) in s.large ==> TableOf(p, 2) in s.at
  {
    assert Parent(Node(1, Key(p, 1))) == TableOf(p, 2);
  }

  lemma WalkEnd(s: State, virt: nat)
    requires Sound(s) && TableOf(PageOf(virt), 1) in s.at
    ensures var n := TableOf(PageOf(virt), 1);
            && s.at[n] in s.heap && |s.heap[s.at[n]]| == 512 && s.at[n] < FRAMES
            && s.heap[s.at[n]][Index(virt, 1)] == Lookup(s, PageOf(virt))
  {
    var n, i := TableOf(PageOf(virt), 1), Index(virt, 1);
    IndexFollowsPath(virt, 1);
    assert s.heap[s.at[n]][i] == Word(s, n, i);
  }

  // ---------- Data pages are left alone ----------

  ghost predicate SameData(s: State, t: State) {
    && t.data == s.data
    && (forall v | v in s.data :: s.data[v] in s.heap && s.data[v] in t.heap && t.heap[s.data[v]] == s.heap[s.data[v]])
  }

  lemma FilledData(s: State, n: Node, i: nat)
    requires Sound(s) && Ready(s, n, i)
    ensures SameData(s, Filled(s, n, i))
  {
    hide Chained, Written, Closed, Used;
  }

  lemma SelfData(s: State)
    requires Sound(s)
    ensures SameData(s, s)
  {
  }

  lemma {:induction false} DescendedData(s: State, virt: nat, level: nat)
    requires Sound(s) && 1 <= level <= 4 && Buildable(s, PageOf(virt), level)
    ensures SameData(s, Descended(s, virt, level))
    decreases 4 - level
  {
    hide Sound, Filled, PageOf, Ready, Deeper, Index, Buildable, TableOf;
    if level == 4 {
      SelfData(s);
    } else {
      BuildableAbove(s, PageOf(virt), level);
      DescendedSound(s, virt, level + 1);
      DescendedStep(s, virt, level);
      DescendedData(s, virt, level + 1);
      FilledData(Descended(s, virt, level + 1), TableOf(PageOf(virt), level + 1), Index(virt, level + 1));
    }
  }

  lemma SmallData(s: State, p: nat, pte: nat)
    requires Sound(s) && HasTable(s, TableOf(p, 1))
    ensures SameData(s, SmallStored(s, p, pte))
  {
  }

  lemma InstalledData(s: State, virt: nat, pte: nat)
    requires Sound(s) && Buildable(s, PageOf(virt), 1)
    ensures SameData(s, Installed(s, virt, 1, pte))
  {
    hide Sound, PageOf, Deeper, Buildable, SmallStored, TableOf;
    var u := Descended(s, virt, 1);
    DescendedSound(s, virt, 1);
    DescendedData(s, virt, 1);
    DeeperTable(s, u, PageOf(virt), 1);
    SmallData(u, PageOf(virt), pte);
  }
}
