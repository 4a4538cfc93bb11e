/** Address arithmetic of a four-level radix tree with 512-entry tables, shared by
    the EPT tables of the kext and the page tables the guest builds for itself. */
module Radix {

  const PAGE_SIZE: nat := 4096
  const WORD: nat := 0x1_0000_0000_0000_0000

  /** Number of pages addressable through bits 12-47. */
  const PAGES: nat := 0x10_0000_0000

  /** Bits 12-47 of an address. */
  function PageOf(a: nat): (p: nat)
    ensures p < PAGES
  {
    a / 4096 % 0x10_0000_0000
  }

  /** Clears bits 0-11. */
  function PageBase(a: nat): nat {
    a - a % 4096
  }

  lemma MulBound(e: int, d: nat)
    ensures e >= 1 ==> e * d >= d
    ensures e <= -1 ==> e * d <= -(d as int)
  {
    if e >= 1 {
      assert (e - 1) * d >= 0;
    }
    if e <= -1 {
      assert (-e - 1) * d >= 0;
    }
  }

  /** Quotient and remainder are determined by the division equation. */
  lemma DivIs(n: nat, d: nat, q: nat, r: nat)
    requires r < d && n == q * d + r
    ensures n / d == q && n % d == r
  {
    MulBound(n / d - q, d);
    assert (n / d - q) * d == r - n % d;
  }

  /** Sets the bit of weight `b`. */
  function SetBit(w: nat, b: nat): nat
    requires b > 0
  {
    if w / b % 2 == 1 then w else w + b
  }

  /** The fields of a number around the bit of weight `b`. */
  lemma BitParts(w: nat, b: nat, h: nat, r: nat, l: nat)
    requires b > 0 && r < 2 && l < b && w == h * (2 * b) + (r * b + l)
    ensures w / b % 2 == r && w % b == l && w / (2 * b) == h
  {
    assert r * b + l < 2 * b;
    DivIs(w, 2 * b, h, r * b + l);
    assert h * (2 * b) == (2 * h) * b;
    assert (2 * h + r) * b == (2 * h) * b + r * b;
    DivIs(w, b, 2 * h + r, l);
    DivIs(2 * h + r, 2, h, r);
  }

  lemma SetBitParts(w: nat, b: nat, h: nat, rest: nat)
    requires b > 0 && rest < 2 * b && w == h * (2 * b) + rest
    ensures SetBit(w, b) / b % 2 == 1 && SetBit(w, b) % b == w % b && SetBit(w, b) / (2 * b) == h
  {
    if rest < b {
      BitParts(w, b, h, 0, rest);
      BitParts(w + b, b, h, 1, rest);
    } else {
      BitParts(w, b, h, 1, rest - b);
    }
  }

  /** The bit is set, and every other one is as it was. */
  lemma SetBitIs(w: nat, b: nat)
    requires b > 0
    ensures SetBit(w, b) / b % 2 == 1 && SetBit(w, b) % b == w % b && SetBit(w, b) / (2 * b) == w / (2 * b)
  {
    hide SetBit;
    SetBitParts(w, b, w / (2 * b), w % (2 * b));
  }

  /** Memory blocks by address, as 64-bit words. */
  type Blocks = map<nat, seq<nat>>

  /** A zeroed block. */
  function Zeroes(words: nat): (z: seq<nat>)
    ensures |z| == words && forall i | 0 <= i < words :: z[i] == 0
  {
    seq(words, _ => 0)
  }

  /** The store `((unsigned long *)p)[i] = v`. */
  function Put(h: Blocks, p: nat, i: nat, v: nat): Blocks
    requires p in h && i < |h[p]|
  {
    var words: seq<nat> := h[p][i := v];
    h[p := words]
  }

  /** A table of the tree: the root is level 4, the last table level 1. A table at
      `level` serves the pages whose number divided by 512^level is `key`. */
  datatype Node = Node(level: nat, key: nat)

  const ROOT := Node(4, 0)

  /** Page number `p` divided by 512^level. */
  function Key(p: nat, level: nat): nat {
    if level == 0 then p else Key(p, level - 1) / 512
  }

  /** The table of the given level on the path of page `p`. */
  function TableOf(p: nat, level: nat): Node {
    Node(level, Key(p, level))
  }

  /** What entry `i` of table `n` leads to: a table one level down, or a page at level 0. */
  function Child(n: Node, i: nat): Node
    requires n.level >= 1
  {
    Node(n.level - 1, 512 * n.key + i)
  }

  function Parent(n: Node): Node {
    Node(n.level + 1, n.key / 512)
  }

  lemma ParentOfChild(n: Node, i: nat)
    requires n.level >= 1 && i < 512
    ensures Parent(Child(n, i)) == n && Child(n, i).key % 512 == i
  {
  }

  /** `a >> (12 + 9 * level)` */
  function Shifted(a: nat, level: nat): nat
    requires level <= 4
  {
    match level
    case 0 => a / 0x1000
    case 1 => a / 0x20_0000
    case 2 => a / 0x4000_0000
    case 3 => a / 0x80_0000_0000
    case 4 => a / 0x1_0000_0000_0000
  }

  /** The index the code computes: `(a >> (12 + 9 * (level - 1))) & 0x1FF`. */
  function Index(a: nat, level: nat): (i: nat)
    requires 1 <= level <= 4
    ensures i < 512
  {
    Shifted(a, level - 1) % 512
  }

  /** 2^(36 - 9 * level) */
  function Cut(level: nat): (c: nat)
    requires level <= 4
    ensures c > 0
  {
    match level
    case 0 => 0x10_0000_0000
    case 1 => 0x800_0000
    case 2 => 0x4_0000
    case 3 => 0x200
    case 4 => 1
  }

  lemma CutStep(k: nat, level: nat)
    requires level < 4
    ensures k % Cut(level) / 512 == k / 512 % Cut(level + 1)
    ensures k % Cut(level) % 512 == k % 512
  {
    var q, r := k / Cut(level), k % Cut(level);
    var h := Cut(level + 1);
    assert Cut(level) == 512 * h;
    assert k == 512 * (q * h + r / 512) + r % 512;
    DivIs(k, 512, q * h + r / 512, r % 512);
    DivIs(q * h + r / 512, h, q, r / 512);
  }

  lemma {:induction false} KeyIsShift(a: nat, level: nat)
    requires level <= 4
    ensures Key(PageOf(a), level) == Shifted(a, level) % Cut(level)
  {
    if level > 0 {
      KeyIsShift(a, level - 1);
      CutStep(Shifted(a, level - 1), level - 1);
      assert Shifted(a, level) == Shifted(a, level - 1) / 512;
    }
  }

  /** Following the computed indices from the root visits exactly the tables of the
      page, and ends at the page itself. */
  lemma IndexFollowsPath(a: nat, level: nat)
    requires 1 <= level <= 4
    ensures TableOf(PageOf(a), 4) == ROOT
    ensures Child(TableOf(PageOf(a), level), Index(a, level)) == TableOf(PageOf(a), level - 1)
  {
    KeyIsShift(a, 4);
    KeyIsShift(a, level - 1);
    CutStep(Shifted(a, level - 1), level - 1);
  }
}
