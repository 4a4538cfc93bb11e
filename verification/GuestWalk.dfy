/** The processor's walk over the guest's tables (section 4.5 of the Intel SDM, volume 3A), and
    that it agrees with what the memory manager keeps; what becomes of a small page installed
    where a large one is. */
module GuestWalk {
  import opened Radix
  import opened GuestTables

  /** How a walk ends: with a fault, or at an entry, `writable` if every entry on the way is. */
  datatype Walk = Fault | Leaf(level: nat, entry: nat, writable: bool)

  /** Bit 1 of an entry. */
  predicate Writable(w: nat) {
    w / 2 % 2 == 1
  }

  /** Four-level paging over the words of `heap`; the page-size bit is reserved at level 4. */
  function ProcessorWalk(heap: Blocks, frame: nat, virt: nat, level: nat): Walk
    requires 1 <= level <= 4
    decreases level
  {
    if frame !in heap || |heap[frame]| != 512 then Fault
    else
      var w := heap[frame][Index(virt, level)];
      if w % 2 == 0 || (level == 4 && w / 128 % 2 == 1) then Fault
      else if level == 1 || w / 128 % 2 == 1 then Leaf(level, w, Writable(w))
      else
        match ProcessorWalk(heap, w / 4096 % FRAMES, virt, level - 1)
        case Fault => Fault
        case Leaf(l, e, writable) => Leaf(l, e, writable && Writable(w))
  }

  /** A leaf whose own bit decides. */
  function LeafOf(level: nat, entry: nat): Walk {
    Leaf(level, entry, Writable(entry))
  }

  /** What the walk should find for page `p`. */
  ghost function Found(s: State, p: nat): Walk {
    if Lookup(s, p) % 2 == 0 then Fault
    else Leaf(if Key(p, 1) in s.large then 2 else 1, Lookup(s, p), Writable(Lookup(s, p)))
  }

  lemma TableEntry(f: nat)
    requires f < FRAMES
    ensures Pte(f) % 2 == 1 && Pte(f) / 128 % 2 == 0 && Pte(f) / 4096 % FRAMES == f && Writable(Pte(f))
  {
    DivIs(Pte(f), 2, 2048 * f + 1, 1);
    DivIs(2048 * f + 1, 2, 1024 * f, 1);
    DivIs(Pte(f), 128, 32 * f, 3);
    DivIs(32 * f, 2, 16 * f, 0);
    DivIs(Pte(f), 4096, f, 3);
    DivIs(f, FRAMES, 0, f);
  }

  lemma NoLargeOverTable(s: State, p: nat)
    requires Sound(s) && TableOf(p, 1) in s.at
    ensures Key(p, 1) !in s.large
  {
    hide Partition, Chained, Written, Key;
  }

  /** From any table on the path. */
  lemma {:induction false} ProcessorFrom(s: State, virt: nat, level: nat)
    requires Sound(s) && 1 <= level <= 4 && TableOf(PageOf(virt), level) in s.at
    ensures ProcessorWalk(s.heap, s.at[TableOf(PageOf(virt), level)], virt, level) == Found(s, PageOf(virt))
    decreases level
  {
    hide Sound, PageOf, Index, TableOf, Key, Pte, Lookup, Writable;
    var p := PageOf(virt);
    if level == 1 {
      WalkEnd(s, virt);
      NoLargeOverTable(s, p);
    } else {
      WalkStep(s, virt, level);
      if TableOf(p, level - 1) in s.at {
        TableEntry(s.at[TableOf(p, level - 1)]);
        ProcessorFrom(s, virt, level - 1);
      }
    }
  }

  /** From the root: the processor finds the entry in force, at its level, or faults where there
      is none. */
  lemma ProcessorFinds(s: State, virt: nat)
    requires Sound(s) && ROOT in s.at
    ensures ProcessorWalk(s.heap, s.at[ROOT], virt, 4) == Found(s, PageOf(virt))
  {
    hide Sound, PageOf, ProcessorWalk, Found;
    var top := 4;
    IndexFollowsPath(virt, top);
    ProcessorFrom(s, virt, top);
  }

  // ---------- A small page under a large one ----------

  /** Where `install_pte` goes for a small page when there is a large one: into the first page
      the large one maps, as if that were a table. */
  function StrayFrame(s: State, virt: nat): nat
    requires Key(PageOf(virt), 1) in s.large
  {
    s.large[Key(PageOf(virt), 1)] / 4096 % FRAMES
  }

  /** The pages under management after that store. */
  function Strayed(s: State, virt: nat, pte: nat): Blocks
    requires Key(PageOf(virt), 1) in s.large
  {
    var f := StrayFrame(s, virt);
    if f in s.heap && |s.heap[f]| == 512 then Put(s.heap, f, Index(virt, 1), pte) else s.heap
  }

  /** The store goes over an entry of the path of `virt` itself. */
  ghost predicate HitsPath(s: State, virt: nat, l: nat)
    requires Key(PageOf(virt), 1) in s.large && 2 <= l <= 4
  {
    && TableOf(PageOf(virt), l) in s.at && s.at[TableOf(PageOf(virt), l)] == StrayFrame(s, virt)
    && Index(virt, 1) == Index(virt, l)
  }

  lemma {:induction false} StrayedFrom(s: State, virt: nat, pte: nat, level: nat)
    requires Sound(s) && Key(PageOf(virt), 1) in s.large && 2 <= level <= 4 && TableOf(PageOf(virt), level) in s.at
    requires !HitsPath(s, virt, 2) && !HitsPath(s, virt, 3) && !HitsPath(s, virt, 4)
    ensures ProcessorWalk(Strayed(s, virt, pte), s.at[TableOf(PageOf(virt), level)], virt, level)
         == LeafOf(2, s.large[Key(PageOf(virt), 1)])
    decreases level
  {
    hide Sound, PageOf, Index, TableOf, Key, Pte, Lookup, StrayFrame, Writable;
    var p := PageOf(virt);
    assert !HitsPath(s, virt, level);
    WalkStep(s, virt, level);
    if level > 2 {
      MappedHasPath(s, p, level - 1);
      TableEntry(s.at[TableOf(p, level - 1)]);
      StrayedFrom(s, virt, pte, level - 1);
    } else {
      NoTableUnderLarge(s, p);
    }
  }

  lemma NoTableUnderLarge(s: State, p: nat)
    requires Sound(s) && Key(p, 1) in s.large
    ensures TableOf(p, 1) !in s.at
  {
    hide Partition, Chained, Written, Key;
  }

  /** The words `install_pte` leaves for a small page, with or without a large one there. */
  ghost function WordsAfter(s: State, virt: nat, pte: nat): Blocks {
    if Key(PageOf(virt), 1) in s.large then Strayed(s, virt, pte) else Installed(s, virt, 1, pte).heap
  }

  /** A small page takes effect exactly if there is no large one. (Should the stray store hit an
      entry on its own way, the path itself is destroyed.) */
  lemma SmallTakesEffect(s: State, virt: nat, pte: nat)
    requires Sound(s) && ROOT in s.at && pte % 2 == 1
    requires |s.stack| >= Missing(s.at.Keys, PageOf(virt), 1)
    requires Key(PageOf(virt), 1) in s.large ==> !HitsPath(s, virt, 2) && !HitsPath(s, virt, 3) && !HitsPath(s, virt, 4)
    ensures ProcessorWalk(WordsAfter(s, virt, pte), s.at[ROOT], virt, 4)
         == if Key(PageOf(virt), 1) in s.large then LeafOf(2, s.large[Key(PageOf(virt), 1)]) else LeafOf(1, pte)
  {
    hide Sound, PageOf, ProcessorWalk, HitsPath, Installed, Missing, Key, Strayed;
    var p, top := PageOf(virt), 4;
    IndexFollowsPath(virt, top);
    PageInRange(virt);
    if Key(p, 1) in s.large {
      StrayedFrom(s, virt, pte, top);
    } else {
      var t := Installed(s, virt, 1, pte);
      InstalledSets(s, virt, 1, pte);
      InstalledSound(s, virt, 1, pte);
      InstalledTook(s, virt, 1, pte);
      RootKept(s, t, p, 1);
      ProcessorFinds(t, virt);
      SetHere(s, t, p, pte);
    }
  }

  lemma SetHere(s: State, t: State, p: nat, pte: nat)
    requires EntrySet(s, t, p, 1, pte) && Took(s, t, p, 1) && Key(p, 1) !in s.large
    ensures Lookup(t, p) == pte && Key(p, 1) !in t.large
  {
    hide Lookup, Key;
  }
}
