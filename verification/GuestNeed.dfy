/** How many pages for tables mapping a range takes, entry by entry and in closed form. */
module GuestNeed {
  import opened Radix
  import opened GuestTables

  /** Pages one entry covers. */
  function Step(level: nat): nat {
    if level == 1 then 1 else 512
  }

  /** Tables needed to install `n` consecutive entries from page `p` on. */
  ghost function Need(tables: set<Node>, p: nat, n: nat, level: nat): nat
    requires level <= 4
    decreases n
  {
    if n == 0 then 0
    else Missing(tables, p, level) + Need(tables + Path(p, level), p + Step(level), n - 1, level)
  }

  /** The tables there are afterwards. */
  ghost function After(tables: set<Node>, p: nat, n: nat, level: nat): set<Node>
    decreases n
  {
    if n == 0 then tables else After(tables + Path(p, level), p + Step(level), n - 1, level)
  }

  /** Pages `setup_mmu` takes to map `n` pages, as its two loops go: the root, and the tables of each. */
  ghost function TablesNeeded(n: nat): nat {
    1 + Need({ROOT}, 0, n / 512, 2) + Need(After({ROOT}, 0, n / 512, 2), 512 * (n / 512), n % 512, 1)
  }

  function CeilDiv(n: nat, d: nat): nat
    requires d > 0
  {
    (n + d - 1) / d
  }

  /** The same in closed form: the root, a table for every 512 GiB and for every 1 GiB begun, and
      one for the small pages of a remainder. */
  function TablesFor(n: nat): nat {
    1 + CeilDiv(n, 0x800_0000) + CeilDiv(n, 0x4_0000) + if n % 512 > 0 then 1 else 0
  }

  // ---------- The closed form ----------

  lemma CeilIs(p: nat, d: nat, q: nat, r: nat)
    requires p == q * d + r && r < d
    ensures CeilDiv(p, d) == q + if r == 0 then 0 else 1
  {
    if r == 0 {
      DivIs(p + d - 1, d, q, d - 1);
    } else {
      assert (q + 1) * d == q * d + d;
      DivIs(p + d - 1, d, q + 1, r - 1);
    }
  }

  lemma CeilNext(p: nat, d: nat, q: nat, r: nat, w: nat)
    requires p == q * d + r && w > 0 && r + w <= d
    ensures CeilDiv(p + w, d) == q + 1
  {
    if r + w < d {
      CeilIs(p + w, d, q, r + w);
    } else {
      assert (q + 1) * d == q * d + d;
      CeilIs(p + w, d, q + 1, 0);
    }
  }

  /** One more entry of `w` pages begins a new table of `d` pages exactly at a multiple of `d`. */
  lemma CeilStep(p: nat, w: nat, c: nat, d: nat)
    requires w > 0 && p % w == 0 && d == w * c > 0
    ensures CeilDiv(p, d) == p / d + if p % d == 0 then 0 else 1
    ensures CeilDiv(p + w, d) == p / d + 1
  {
    hide CeilDiv;
    RemainderStep(p, w, c);
    CeilIs(p, d, p / d, p % d);
    CeilNext(p, d, p / d, p % d, w);
  }

  lemma RemainderMultiple(p: nat, w: nat, c: nat, q: nat, r: nat)
    requires w > 0 && p % w == 0 && p == q * (w * c) + r
    ensures r % w == 0
  {
    var a, b := r / w, r % w;
    assert q * (w * c) == (q * c) * w;
    assert p == (q * c + a) * w + b;
    DivIs(p, w, q * c + a, b);
  }

  lemma RoomLeft(r: nat, w: nat, c: nat)
    requires w > 0 && r % w == 0 && r < w * c
    ensures r + w <= w * c
  {
    var a := r / w;
    assert r == a * w;
    assert (c - a) * w == w * c - r;
    MulBound(c - a, w);
  }

  /** What is left over is a multiple of `w` too, so another `w` fits. */
  lemma RemainderStep(p: nat, w: nat, c: nat)
    requires w > 0 && p % w == 0 && w * c > 0
    ensures p % (w * c) + w <= w * c
  {
    RemainderMultiple(p, w, c, p / (w * c), p % (w * c));
    RoomLeft(p % (w * c), w, c);
  }

  lemma CeilZero(p: nat, d: nat)
    requires d > 0 && p == 0
    ensures CeilDiv(p, d) == 0
  {
    DivIs(d - 1, d, 0, d - 1);
  }

  lemma KeyIs(p: nat)
    ensures Key(p, 2) == p / 0x4_0000 && Key(p, 3) == p / 0x800_0000 && Key(p, 1) == p / 512
  {
    var k1, r1 := p / 512, p % 512;
    var k2, r2 := k1 / 512, k1 % 512;
    var k3, r3 := k2 / 512, k2 % 512;
    DivIs(p, 0x4_0000, k2, 512 * r2 + r1);
    DivIs(p, 0x800_0000, k3, 0x4_0000 * r3 + 512 * r2 + r1);
    assert Key(p, 1) == k1 && Key(p, 2) == Key(p, 1) / 512 && Key(p, 3) == Key(p, 2) / 512;
  }

  /** The tables of levels 2 and 3 are those of the pages below `p`. */
  ghost predicate Dense(tables: set<Node>, p: nat) {
    && (forall k: nat :: Node(2, k) in tables <==> k < CeilDiv(p, 0x4_0000))
    && (forall k: nat :: Node(3, k) in tables <==> k < CeilDiv(p, 0x800_0000))
  }

  /** Tables of levels 2 and 3 for the pages below `p`. */
  function Upper(p: nat): nat {
    CeilDiv(p, 0x4_0000) + CeilDiv(p, 0x800_0000)
  }

  lemma MissingTwo(tables: set<Node>, p: nat)
    ensures Missing(tables, p, 2)
         == (if TableOf(p, 2) in tables then 0 else 1) + (if TableOf(p, 3) in tables then 0 else 1)
    ensures Missing(tables, p, 1) == (if TableOf(p, 1) in tables then 0 else 1) + Missing(tables, p, 2)
  {
    assert Missing(tables, p, 4) == 0;
    assert Missing(tables, p, 3) == (if TableOf(p, 3) in tables then 0 else 1) + Missing(tables, p, 4);
  }

  /** What both levels count before and after another entry of `w` pages. */
  lemma UpperStep(p: nat, w: nat)
    requires (w == 1 || w == 512) && p % w == 0
    ensures CeilDiv(p, 0x4_0000) == Key(p, 2) + if p % 0x4_0000 == 0 then 0 else 1
    ensures CeilDiv(p, 0x800_0000) == Key(p, 3) + if p % 0x800_0000 == 0 then 0 else 1
    ensures CeilDiv(p + w, 0x4_0000) == Key(p, 2) + 1 && CeilDiv(p + w, 0x800_0000) == Key(p, 3) + 1
  {
    hide CeilDiv, Key;
    KeyIs(p);
    CeilStep(p, w, if w == 1 then 0x4_0000 else 512, 0x4_0000);
    CeilStep(p, w, if w == 1 then 0x800_0000 else 0x4_0000, 0x800_0000);
  }

  lemma DenseMissing(tables: set<Node>, p: nat, w: nat)
    requires Dense(tables, p) && (w == 1 || w == 512) && p % w == 0
    ensures Missing(tables, p, 2) + Upper(p) == Upper(p + w)
  {
    hide CeilDiv, Missing, Key;
    MissingTwo(tables, p);
    UpperStep(p, w);
  }

  lemma DenseMore(tables: set<Node>, p: nat, w: nat, more: set<Node>)
    requires Dense(tables, p) && (w == 1 || w == 512) && p % w == 0
    requires more == {TableOf(p, 2), TableOf(p, 3)} || more == {TableOf(p, 1), TableOf(p, 2), TableOf(p, 3)}
    ensures Dense(tables + more, p + w)
  {
    hide CeilDiv, Key;
    UpperStep(p, w);
  }

  /** The loop over large pages. */
  lemma {:induction false} LargeNeed(tables: set<Node>, p: nat, m: nat)
    requires Dense(tables, p) && p % 512 == 0
    ensures Need(tables, p, m, 2) + Upper(p) == Upper(p + 512 * m)
    ensures Dense(After(tables, p, m, 2), p + 512 * m)
    ensures forall k: nat :: Node(1, k) in After(tables, p, m, 2) <==> Node(1, k) in tables
    decreases m
  {
    hide Dense, Upper, Missing, TableOf;
    if m > 0 {
      DenseMissing(tables, p, 512);
      DenseMore(tables, p, 512, Path(p, 2));
      DivIs(p + 512, 512, p / 512 + 1, 0);
      LargeNeed(tables + Path(p, 2), p + 512, m - 1);
      NotLeaf(p);
    }
  }

  lemma NotLeaf(p: nat)
    ensures forall k: nat :: Node(1, k) !in Path(p, 2)
  {
  }

  /** Further small pages of a leaf table that is there need nothing more. */
  lemma {:induction false} RestNeed(tables: set<Node>, p: nat, q: nat, m: nat)
    requires p % 512 == 0 && p <= q && q + m <= p + 512
    requires TableOf(p, 1) in tables && TableOf(p, 2) in tables && TableOf(p, 3) in tables
    ensures Need(tables, q, m, 1) == 0
    decreases m
  {
    hide Missing, TableOf;
    if m > 0 {
      SameLeaf(p, q);
      MissingTwo(tables, q);
      RestNeed(tables + Path(q, 1), p, q + 1, m - 1);
    }
  }

  lemma SameLeaf(p: nat, q: nat)
    requires p % 512 == 0 && p <= q < p + 512
    ensures TableOf(q, 1) == TableOf(p, 1) && TableOf(q, 2) == TableOf(p, 2) && TableOf(q, 3) == TableOf(p, 3)
  {
    DivIs(q, 512, p / 512, q - p);
    assert Key(q, 1) == Key(p, 1) && Key(q, 2) == Key(q, 1) / 512 && Key(q, 3) == Key(q, 2) / 512;
    assert Key(p, 2) == Key(p, 1) / 512 && Key(p, 3) == Key(p, 2) / 512;
  }

  /** The loop over small pages. */
  lemma SmallNeed(tables: set<Node>, p: nat, m: nat)
    requires Dense(tables, p) && p % 512 == 0 && m < 512 && Node(1, p / 512) !in tables
    ensures Need(tables, p, m, 1) + Upper(p) == Upper(p + m) + if m > 0 then 1 else 0
  {
    hide Dense, Upper, Missing, Key;
    if m > 0 {
      KeyIs(p);
      DenseMissing(tables, p, 1);
      MissingTwo(tables, p);
      RestNeed(tables + Path(p, 1), p, p + 1, m - 1);
      UpperWithin(p, m);
    }
  }

  /** The same tables for one page and for several of one leaf table. */
  lemma UpperWithin(p: nat, m: nat)
    requires p % 512 == 0 && 0 < m < 512
    ensures Upper(p + m) == Upper(p + 1)
  {
    CeilWithin(p, m, 512);
    CeilWithin(p, m, 0x4_0000);
  }

  lemma CeilWithin(p: nat, m: nat, c: nat)
    requires p % 512 == 0 && 0 < m < 512 && c > 0
    ensures CeilDiv(p + m, 512 * c) == CeilDiv(p + 1, 512 * c)
  {
    var d := 512 * c;
    var q, r := p / d, p % d;
    RemainderStep(p, 512, c);
    assert p == q * d + r;
    DivIs(p + m + d - 1, d, q + 1, r + m - 1);
    DivIs(p + 1 + d - 1, d, q + 1, r);
  }

  lemma DenseEmpty(p: nat)
    requires p == 0
    ensures Dense({ROOT}, p) && Upper(p) == 0
  {
    hide CeilDiv;
    CeilZero(p, 0x4_0000);
    CeilZero(p, 0x800_0000);
  }

  /** What the loops need, table by table, is the closed form. */
  lemma TablesForIs(n: nat)
    ensures TablesNeeded(n) == TablesFor(n)
  {
    hide Dense, Need, After, CeilDiv;
    var k, start := n / 512, 0;
    DenseEmpty(start);
    LargeNeed({ROOT}, start, k);
    DivIs(512 * k, 512, k, 0);
    SmallNeed(After({ROOT}, start, k, 2), 512 * k, n % 512);
  }

  /** The 128 MiB of the guest programs take three pages. */
  lemma TablesForGuest(n: nat)
    requires n == 0x8000
    ensures TablesFor(n) == 3
  {
    DivIs(n + 0x4_0000 - 1, 0x4_0000, 1, n - 1);
    DivIs(n + 0x800_0000 - 1, 0x800_0000, 1, n - 1);
    DivIs(n, 512, 64, 0);
  }
}
