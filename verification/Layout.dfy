/** The layout of a shared region: a map of free extents by offset, and the live blocks. */
module Layout {

  const ALIGNMENT: nat := 64

  datatype Block = Block(off: nat, size: nat, localRefs: nat, peerHolds: nat)

  predicate Aligned(off: nat, size: nat) {
    size > 0 && off % ALIGNMENT == 0 && size % ALIGNMENT == 0
  }

  lemma AlignedCut(off: nat, size: nat, n: nat)
    requires Aligned(off, size) && n % ALIGNMENT == 0 && 0 < n < size
    ensures Aligned(off, n) && Aligned(off + n, size - n)
  {
  }

  lemma AlignedJoin(off: nat, size: nat, n: nat)
    requires Aligned(off, size) && Aligned(off + size, n)
    ensures Aligned(off, size + n)
  {
  }

  predicate Within(off: nat, size: nat, a: int) { off <= a < off + size }

  /** Free extents are aligned and inside the region; two of them may touch only where allowed. */
  ghost predicate FreeOk(free: map<nat, nat>, region: nat, x: nat, left: bool, right: bool) {
    && (forall o :: o in free ==> Aligned(o, free[o]) && o + free[o] <= region)
    && (forall o, p :: o in free && p in free && o < p ==>
          o + free[o] < p || (o + free[o] == p && ((left && p == x) || (right && o == x))))
  }

  /** No two free extents touch. */
  ghost predicate Coalesced(free: map<nat, nat>, region: nat) {
    FreeOk(free, region, 0, false, false)
  }

  ghost predicate InFree(free: map<nat, nat>, a: int) {
    exists o :: o in free && Within(o, free[o], a)
  }

  ghost predicate InLive(blocks: map<nat, Block>, a: int) {
    exists id :: id in blocks && Within(blocks[id].off, blocks[id].size, a)
  }

  /** Live blocks are aligned, inside the region and disjoint. */
  ghost predicate BlocksOk(blocks: map<nat, Block>, region: nat) {
    && (forall id :: id in blocks ==> Aligned(blocks[id].off, blocks[id].size) && blocks[id].off + blocks[id].size <= region)
    && (forall i, j, a ::
          i in blocks && j in blocks
          && Within(blocks[i].off, blocks[i].size, a) && Within(blocks[j].off, blocks[j].size, a) ==>
            i == j)
  }

  /** Every address of the region is free or live, never both. */
  ghost predicate Partition(free: map<nat, nat>, blocks: map<nat, Block>, region: nat) {
    forall a :: 0 <= a < region ==> (InFree(free, a) <==> !InLive(blocks, a))
  }

  ghost predicate LayoutOk(free: map<nat, nat>, blocks: map<nat, Block>, region: nat) {
    Coalesced(free, region) && BlocksOk(blocks, region) && Partition(free, blocks, region)
  }

  /** No live block has a byte among the `n` from `x`. */
  ghost predicate Gap(blocks: map<nat, Block>, region: nat, x: nat, n: nat) {
    x + n <= region && forall a :: x <= a < x + n ==> !InLive(blocks, a)
  }

  /** Free addresses that follow one another lie in one extent, so a gap does. */
  lemma {:induction false} GapInOneExtent(free: map<nat, nat>, region: nat, x: nat, n: nat) returns (o: nat)
    requires Coalesced(free, region) && n > 0 && forall a :: x <= a < x + n ==> InFree(free, a)
    ensures o in free && o <= x && x + n <= o + free[o]
  {
    hide Aligned;
    assert InFree(free, x + n - 1);
    if n == 1 {
      o :| o in free && Within(o, free[o], x);
    } else {
      o := GapInOneExtent(free, region, x, n - 1);
      var p :| p in free && Within(p, free[p], x + n - 1);
      assert o == p || o < p || p < o;
    }
  }

  // ---- Allocation ----

  function Taken(free: map<nat, nat>, o: nat, size: nat): map<nat, nat>
    requires o in free && size <= free[o]
  {
    var rest := free - {o};
    if free[o] == size then rest else rest[o + size := free[o] - size]
  }

  lemma TakenMembers(free: map<nat, nat>, region: nat, o: nat, size: nat, a: int)
    requires Coalesced(free, region) && o in free && 0 < size <= free[o]
    ensures InFree(Taken(free, o, size), a) <==> InFree(free, a) && !Within(o, size, a)
  {
    hide Aligned;
    var t := Taken(free, o, size);
    if InFree(t, a) {
      var p :| p in t && Within(p, t[p], a);
      assert Within(if p == o + size && size < free[o] then o else p, free[if p == o + size && size < free[o] then o else p], a);
    }
    if InFree(free, a) && !Within(o, size, a) {
      var p :| p in free && Within(p, free[p], a);
      var q := if p == o then o + size else p;
      assert q in t && Within(q, t[q], a);
    }
  }

  lemma TakenCoalesced(free: map<nat, nat>, region: nat, o: nat, size: nat)
    requires Coalesced(free, region) && o in free && 0 < size <= free[o] && size % ALIGNMENT == 0
    ensures Coalesced(Taken(free, o, size), region) && Aligned(o, size)
  {
    if size < free[o] { AlignedCut(o, free[o], size); }
    hide Aligned;
  }

  /** Cutting a block from the front of a free extent keeps the layout. */
  lemma AllocateKeeps(free: map<nat, nat>, blocks: map<nat, Block>, region: nat, o: nat, size: nat, id: nat, b: Block)
    requires LayoutOk(free, blocks, region) && o in free && 0 < size <= free[o] && size % ALIGNMENT == 0
    requires id !in blocks && b.off == o && b.size == size
    ensures LayoutOk(Taken(free, o, size), blocks[id := b], region)
    ensures Gap(blocks, region, o, size)
  {
    TakenCoalesced(free, region, o, size);
    hide Aligned;
    forall a | 0 <= a < region
      ensures InFree(Taken(free, o, size), a) <==> InFree(free, a) && !Within(o, size, a)
      ensures InLive(blocks[id := b], a) <==> InLive(blocks, a) || Within(o, size, a)
      ensures Within(o, size, a) ==> InFree(free, a) && !InLive(blocks, a)
    {
      TakenMembers(free, region, o, size, a);
      LiveAdded(blocks, id, b, a);
    }
    assert forall a :: Within(o, size, a) ==> 0 <= a < region;
  }

  lemma LiveAdded(blocks: map<nat, Block>, id: nat, b: Block, a: int)
    requires id !in blocks
    ensures InLive(blocks[id := b], a) <==> InLive(blocks, a) || Within(b.off, b.size, a)
  {
    var t := blocks[id := b];
    if Within(b.off, b.size, a) { assert id in t && Within(t[id].off, t[id].size, a); }
    if InLive(blocks, a) {
      var i :| i in blocks && Within(blocks[i].off, blocks[i].size, a);
      assert i in t && Within(t[i].off, t[i].size, a);
    }
  }

  lemma LiveRemoved(blocks: map<nat, Block>, region: nat, id: nat, a: int)
    requires BlocksOk(blocks, region) && id in blocks
    ensures InLive(blocks - {id}, a) <==> InLive(blocks, a) && !Within(blocks[id].off, blocks[id].size, a)
  {
    hide Aligned;
    var t := blocks - {id};
    if InLive(t, a) {
      var i :| i in t && Within(t[i].off, t[i].size, a);
      assert i in blocks && Within(blocks[i].off, blocks[i].size, a);
    }
    if InLive(blocks, a) && !Within(blocks[id].off, blocks[id].size, a) {
      var i :| i in blocks && Within(blocks[i].off, blocks[i].size, a);
      assert i in t && Within(t[i].off, t[i].size, a);
    }
  }

  // ---- Release ----

  /** A live block's offset is not the offset of a free extent, and adding it keeps the free list
      loose around it. */
  lemma GiveBack(free: map<nat, nat>, blocks: map<nat, Block>, region: nat, id: nat)
    requires LayoutOk(free, blocks, region) && id in blocks
    ensures blocks[id].off !in free
    ensures var x := blocks[id].off;
            && FreeOk(free[x := blocks[id].size], region, x, true, true)
            && BlocksOk(blocks - {id}, region)
            && Partition(free[x := blocks[id].size], blocks - {id}, region)
  {
    hide Aligned;
    var b := blocks[id];
    forall o | o in free
      ensures o != b.off && (o + free[o] <= b.off || b.off + b.size <= o)
    {
      FreeApart(free, blocks, region, id, o);
    }
    forall a | 0 <= a < region
      ensures InFree(free[b.off := b.size], a) <==> InFree(free, a) || Within(b.off, b.size, a)
      ensures InLive(blocks - {id}, a) <==> InLive(blocks, a) && !Within(b.off, b.size, a)
      ensures Within(b.off, b.size, a) ==> InLive(blocks, a)
    {
      FreeAdded(free, b.off, b.size, a);
      LiveRemoved(blocks, region, id, a);
      if Within(b.off, b.size, a) { assert id in blocks; }
    }
  }

  lemma FreeApart(free: map<nat, nat>, blocks: map<nat, Block>, region: nat, id: nat, o: nat)
    requires LayoutOk(free, blocks, region) && id in blocks && o in free
    ensures blocks[id].off != o
    ensures o + free[o] <= blocks[id].off || blocks[id].off + blocks[id].size <= o
  {
    var b := blocks[id];
    assert Aligned(o, free[o]) && Aligned(b.off, b.size);
    var a := if o <= b.off then b.off else o;
    assert Within(b.off, b.size, a) ==> InLive(blocks, a);
    assert Within(o, free[o], a) ==> InFree(free, a);
  }

  lemma FreeAdded(free: map<nat, nat>, x: nat, n: nat, a: int)
    requires x !in free
    ensures InFree(free[x := n], a) <==> InFree(free, a) || Within(x, n, a)
  {
    var t := free[x := n];
    if Within(x, n, a) { assert x in t && Within(x, t[x], a); }
    if InFree(free, a) {
      var o :| o in free && Within(o, free[o], a);
      assert o in t && Within(o, t[o], a);
    }
  }

  function Merged(free: map<nat, nat>, o: nat, p: nat): map<nat, nat>
    requires o in free && p in free
  {
    (free - {p})[o := free[o] + free[p]]
  }

  /** Joining an extent with the one that starts at its end changes no address. */
  lemma MergedMembers(free: map<nat, nat>, o: nat, p: nat, a: int)
    requires o in free && p in free && o < p && o + free[o] == p
    ensures InFree(Merged(free, o, p), a) <==> InFree(free, a)
  {
    var t := Merged(free, o, p);
    if InFree(t, a) {
      var q :| q in t && Within(q, t[q], a);
      assert Within(if q == o && a >= p then p else q, free[if q == o && a >= p then p else q], a);
    }
    if InFree(free, a) {
      var q :| q in free && Within(q, free[q], a);
      assert Within(if q == p then o else q, t[if q == p then o else q], a);
    }
  }

  lemma MergedPartition(free: map<nat, nat>, blocks: map<nat, Block>, region: nat, o: nat, p: nat)
    requires o in free && p in free && o < p && o + free[o] == p && Partition(free, blocks, region)
    ensures Partition(Merged(free, o, p), blocks, region)
  {
    forall a | 0 <= a < region
      ensures InFree(Merged(free, o, p), a) <==> InFree(free, a)
    {
      MergedMembers(free, o, p, a);
    }
  }

  lemma MergedRight(free: map<nat, nat>, region: nat, x: nat, p: nat)
    requires FreeOk(free, region, x, true, true) && x in free && p in free && x + free[x] == p
    ensures FreeOk(Merged(free, x, p), region, x, true, false)
  {
    AlignedJoin(x, free[x], free[p]);
    hide Aligned;
  }

  /** When no extent starts where `x` ends, nothing touches it on the right. */
  lemma NoRight(free: map<nat, nat>, region: nat, x: nat)
    requires FreeOk(free, region, x, true, true) && x in free && x + free[x] !in free
    ensures FreeOk(free, region, x, true, false)
  {
    hide Aligned;
  }

  lemma MergedLeft(free: map<nat, nat>, region: nat, o: nat, x: nat)
    requires FreeOk(free, region, x, true, false) && x in free && o in free && o < x && o + free[o] == x
    ensures Coalesced(Merged(free, o, x), region)
  {
    AlignedJoin(o, free[o], free[x]);
    hide Aligned;
  }

  lemma NoLeft(free: map<nat, nat>, region: nat, x: nat)
    requires FreeOk(free, region, x, true, false) && x in free
    requires forall o :: o in free && o < x ==> o + free[o] != x
    ensures Coalesced(free, region)
  {
    hide Aligned;
  }

  /** Without live blocks the free list is the whole region in one extent. */
  lemma EmptyIsWhole(free: map<nat, nat>, region: nat)
    requires LayoutOk(free, map[], region) && region % ALIGNMENT == 0
    ensures free == if region == 0 then map[] else map[0 := region]
  {
    forall a | 0 <= a < region
      ensures InFree(free, a)
    {
      assert !InLive(map[], a);
    }
    if region > 0 {
      var o := GapInOneExtent(free, region, 0, region);
      forall p | p in free ensures p == o {
        assert Aligned(p, free[p]);
      }
    } else {
      forall p | p in free ensures false {
      }
    }
  }
}
