/** The shared-memory payload strategy's bookkeeping on one side: allocation, the two kinds of hold
    on a block, and the coordinator's record of which request holds what. Addresses are offsets into
    this side's own region. */
module SharedMemory {
  import opened Jobs
  import opened Layout

  datatype Role = Unknown | Coordinator | Worker

  function LocalOf(blocks: map<nat, Block>, id: nat): nat { if id in blocks then blocks[id].localRefs else 0 }
  function PeerOf(blocks: map<nat, Block>, id: nat): nat { if id in blocks then blocks[id].peerHolds else 0 }

  /** Blocks that live in both maps lie at the same place. */
  ghost predicate SamePlaces(before: map<nat, Block>, after: map<nat, Block>) {
    forall id :: id in before && id in after ==> after[id].off == before[id].off && after[id].size == before[id].size
  }

  ghost function SumSizes(blocks: map<nat, Block>, n: nat): nat {
    if n == 0 then 0 else SumSizes(blocks, n - 1) + (if n - 1 in blocks then blocks[n - 1].size else 0)
  }

  lemma {:induction false} SumSizesFrame(a: map<nat, Block>, b: map<nat, Block>, id: nat, n: nat)
    requires forall i :: i != id ==> (i in a <==> i in b)
    requires forall i :: i != id && i in a && i in b ==> a[i].size == b[i].size
    ensures SumSizes(b, n) == SumSizes(a, n) + (if id < n && id in b then b[id].size else 0)
                                             - (if id < n && id in a then a[id].size else 0)
  {
    if n > 0 { SumSizesFrame(a, b, id, n - 1); }
  }

  /** How often the scopes below `n` name block `id`. */
  ghost function Uses(scopes: map<nat, seq<nat>>, n: nat, id: nat): nat {
    if n == 0 then 0 else Uses(scopes, n - 1, id) + (if n - 1 in scopes then multiset(scopes[n - 1])[id] else 0)
  }

  lemma {:induction false} UsesFrame(a: map<nat, seq<nat>>, b: map<nat, seq<nat>>, s: nat, n: nat, id: nat)
    requires forall t :: t != s ==> (t in a <==> t in b)
    requires forall t :: t != s && t in a && t in b ==> a[t] == b[t]
    ensures Uses(b, n, id) == Uses(a, n, id) + (if s < n && s in b then multiset(b[s])[id] else 0)
                                             - (if s < n && s in a then multiset(a[s])[id] else 0)
  {
    if n > 0 { UsesFrame(a, b, s, n - 1, id); }
  }

  lemma {:induction false} UsesBeyond(scopes: map<nat, seq<nat>>, m: nat, n: nat, id: nat)
    requires m <= n && forall s :: s in scopes ==> s < m
    ensures Uses(scopes, n, id) == Uses(scopes, m, id)
  {
    if m < n { UsesBeyond(scopes, m, n - 1, id); }
  }

  function Minus(a: nat, b: nat): nat { if a < b then 0 else a - b }

  /** `size` is the least positive multiple of the alignment that holds `bytes`. */
  predicate Fits(bytes: nat, size: nat) {
    && size % ALIGNMENT == 0 && size >= ALIGNMENT && size >= bytes
    && (size == ALIGNMENT || size < bytes + ALIGNMENT)
  }

  /** The size a request of `bytes` occupies. */
  function Rounded(bytes: nat): (r: nat)
    ensures Fits(bytes, r)
  {
    var up := (bytes + ALIGNMENT - 1) / ALIGNMENT * ALIGNMENT;
    if up < ALIGNMENT then ALIGNMENT else up
  }

  lemma MultiplesApart(a: nat, b: nat)
    requires a % ALIGNMENT == 0 && b % ALIGNMENT == 0 && a < b
    ensures a + ALIGNMENT <= b
  {
  }

  /** No other size fits. */
  lemma FitsOnly(bytes: nat, size: nat)
    requires Fits(bytes, size)
    ensures size == Rounded(bytes)
  {
    hide Rounded;
    var r := Rounded(bytes);
    if size < r { MultiplesApart(size, r); }
    if r < size { MultiplesApart(r, size); }
  }

  /** Somewhere in the region a block for `bytes` touches no live block. */
  ghost predicate Room(blocks: map<nat, Block>, region: nat, bytes: nat) {
    exists size: nat, x: nat :: Fits(bytes, size) && Gap(blocks, region, x, size)
  }

  lemma RoomMeans(blocks: map<nat, Block>, region: nat, bytes: nat)
    ensures Room(blocks, region, bytes) <==> exists x: nat :: Gap(blocks, region, x, Rounded(bytes))
  {
    hide Gap, Fits, Rounded;
    if Room(blocks, region, bytes) {
      var size: nat, x: nat :| Fits(bytes, size) && Gap(blocks, region, x, size);
      FitsOnly(bytes, size);
    }
    assert Fits(bytes, Rounded(bytes));
  }

  /** The smallest key not below `from`: std::map's lower_bound. */
  method LowerBound(m: map<nat, nat>, from: nat) returns (found: bool, key: nat)
    ensures found <==> exists k :: k in m && from <= k
    ensures found ==> key in m && from <= key && forall k :: k in m && from <= k ==> key <= k
  {
    found, key := false, 0;
    var todo := m.Keys;
    while todo != {}
      invariant todo <= m.Keys
      invariant found ==> key in m && from <= key
      invariant forall k :: k in m && k !in todo && from <= k ==> found && key <= k
      decreases |todo|
    {
      var k :| k in todo;
      if from <= k && (!found || k < key) { found, key := true, k; }
      todo := todo - {k};
    }
  }

  /** The largest key below `before`: the entry in front of an iterator. */
  method Previous(m: map<nat, nat>, before: nat) returns (found: bool, key: nat)
    ensures found <==> exists k :: k in m && k < before
    ensures found ==> key in m && key < before && forall k :: k in m && k < before ==> k <= key
  {
    found, key := false, 0;
    var todo := m.Keys;
    while todo != {}
      invariant todo <= m.Keys
      invariant found ==> key in m && key < before
      invariant forall k :: k in m && k !in todo && k < before ==> found && k <= key
      decreases |todo|
    {
      var k :| k in todo;
      if k < before && (!found || key < k) { found, key := true, k; }
      todo := todo - {k};
    }
  }

  /** An in-place buffer is found again where it lies; anything else goes to a new block in a place that
      no live block touched. */
  ghost predicate PlacedAt(before: map<nat, Block>, after: map<nat, Block>, byAddress: map<nat, nat>,
                           address: Option<nat>, bytes: nat, region: nat, id: nat) {
    id in after
    && if address.Some? && address.value in byAddress
       then id == byAddress[address.value] && after[id].off == address.value && after.Keys == before.Keys
       else id !in before && after.Keys == before.Keys + {id}
            && Fits(bytes, after[id].size) && Gap(before, region, after[id].off, after[id].size)
  }

  lemma PlacedKept(before: map<nat, Block>, mid: map<nat, Block>, after: map<nat, Block>, byAddress: map<nat, nat>,
                   address: Option<nat>, bytes: nat, region: nat, id: nat)
    requires PlacedAt(before, mid, byAddress, address, bytes, region, id)
    requires id in after && after == mid[id := after[id]]
    requires after[id].off == mid[id].off && after[id].size == mid[id].size
    ensures PlacedAt(before, after, byAddress, address, bytes, region, id)
  {
  }

  /** Where send() put a payload: in a block of the region, or on the fallback stream. */
  datatype Reference = InRegion(id: nat, off: nat) | Streamed

  /** A region without blocks is one free extent. */
  lemma WholeLayout(free: map<nat, nat>, blocks: map<nat, Block>, region: nat)
    requires region % ALIGNMENT == 0 && blocks == map[] && free == if region > 0 then map[0 := region] else map[]
    ensures LayoutOk(free, blocks, region)
  {
    forall a | 0 <= a < region
      ensures InFree(free, a) && !InLive(blocks, a)
    {
      assert 0 in free && Within(0, free[0], a);
    }
  }

  class State {
    var own: bool                      // the region is still mapped by the strategy
    const region: nat                  // its size, rounded down to the alignment
    var role: Role
    var free: map<nat, nat>
    var inUse: int
    var blocks: map<nat, Block>
    var byAddress: map<nat, nat>
    var scopes: map<nat, seq<nat>>
    var nextBlock: nat
    ghost var bound: nat               // above every open scope

    ghost predicate Addressed()
      reads this`byAddress, this`blocks
    {
      && (forall a :: a in byAddress ==> byAddress[a] in blocks && blocks[byAddress[a]].off == a)
      && (forall id :: id in blocks && blocks[id].localRefs > 0 ==>
            blocks[id].off in byAddress && byAddress[blocks[id].off] == id)
    }

    /** The allocator's part: layout, accounting and lookup. */
    ghost predicate Sound()
      reads this`free, this`blocks, this`inUse, this`byAddress, this`nextBlock
    {
      && region % ALIGNMENT == 0 && nextBlock >= 1
      && LayoutOk(free, blocks, region)
      && (forall id :: id in blocks ==> 1 <= id < nextBlock)
      && inUse == SumSizes(blocks, nextBlock)
      && Addressed()
    }

    /** Between operations no block lives without a hold. */
    ghost predicate Held()
      reads this`blocks
    {
      forall id :: id in blocks ==> blocks[id].localRefs > 0 || blocks[id].peerHolds > 0
    }

    ghost predicate Valid()
      reads this
    {
      Sound() && Held() && (forall s :: s in scopes ==> s < bound) && (role != Coordinator ==> scopes == map[])
    }

    /** On the coordinator, a block's peer holds are its occurrences in the open scopes. */
    ghost predicate ScopesMatch()
      reads this`blocks, this`scopes, this`bound
    {
      forall id :: PeerOf(blocks, id) == Uses(scopes, bound, id)
    }

    constructor (size: nat, role: Role)
      ensures Valid() && ScopesMatch() && blocks == map[] && scopes == map[] && own && this.role == role
      ensures region == size - size % ALIGNMENT
    {
      own, this.role := true, role;
      region := size - size % ALIGNMENT;
      free := if size >= ALIGNMENT then map[0 := size - size % ALIGNMENT] else map[];
      inUse, blocks, byAddress, scopes, nextBlock, bound := 0, map[], map[], map[], 1, 0;
      new;
      hide LayoutOk, Uses;
      WholeLayout(free, blocks, region);
      assert SumSizes(blocks, 1) == 0;
      forall id ensures Uses(scopes, bound, id) == 0 { UsesNone(scopes, bound, id); }
    }

    /** First fit. Fails exactly when the strategy has no region or no gap of that size is free of live
        blocks; otherwise takes the lowest such gap. The new block has no hold yet. */
    method AllocateBlock(bytes: nat) returns (id: nat)
      requires Sound()
      modifies this`free, this`blocks, this`inUse, this`nextBlock
      ensures Sound()
      ensures id == 0 <==> !own || !Room(old(blocks), region, bytes)
      ensures id == 0 ==> blocks == old(blocks) && inUse == old(inUse) && free == old(free)
      ensures id != 0 ==>
        && id == old(nextBlock) && id !in old(blocks) && id in blocks && blocks == old(blocks)[id := blocks[id]]
        && blocks[id] == Block(blocks[id].off, blocks[id].size, 0, 0) && Fits(bytes, blocks[id].size)
        && Gap(old(blocks), region, blocks[id].off, blocks[id].size)
        && (forall x :: 0 <= x < blocks[id].off ==> !Gap(old(blocks), region, x, blocks[id].size))
        && inUse == old(inUse) + blocks[id].size
    {
      hide LayoutOk, Gap, Rounded, Room;
      RoomMeans(blocks, region, bytes);
      if !own {
        return 0;
      }
      var size := Rounded(bytes);
      var found, o := FirstFit(size);
      if !found {
        return 0;
      }
      id := nextBlock;
      AllocateKeeps(free, blocks, region, o, size, id, Block(o, size, 0, 0));
      SumSizesFrame(blocks, blocks[id := Block(o, size, 0, 0)], id, id + 1);
      TakeFront(o, size);
      inUse := inUse + size;
      nextBlock := nextBlock + 1;
      blocks := blocks[id := Block(o, size, 0, 0)];
    }

    /** Cuts `size` bytes from the front of the free extent at `o`. */
    method TakeFront(o: nat, size: nat)
      requires o in free && size <= free[o]
      modifies this`free
      ensures free == Taken(old(free), o, size)
    {
      ghost var taken := Taken(free, o, size);
      var remaining := free[o] - size;
      free := free - {o};
      if remaining != 0 {
        free := free[o + size := remaining];
      }
      assert free == taken;
    }

    /** Walks the free list in address order to the first extent that is large enough. */
    method FirstFit(size: nat) returns (found: bool, o: nat)
      requires LayoutOk(free, blocks, region) && size > 0
      ensures found ==> o in free && free[o] >= size && forall x :: 0 <= x < o ==> !Gap(blocks, region, x, size)
      ensures !found ==> forall x :: 0 <= x ==> !Gap(blocks, region, x, size)
    {
      hide LayoutOk, Gap;
      var from := 0;
      found, o := LowerBound(free, from);
      while found && free[o] < size
        invariant found ==> o in free && from <= o && forall k :: k in free && from <= k ==> o <= k
        invariant found <==> exists k :: k in free && from <= k
        invariant forall k :: k in free && k < from ==> free[k] < size
        decreases region - from + 1
        modifies {}
      {
        OffsetInRegion(free, blocks, region, o);
        from := o + 1;
        found, o := LowerBound(free, from);
      }
      if found {
        NoEarlierGap(free, blocks, region, size, o);
      } else {
        NoEarlierGap(free, blocks, region, size, from);
      }
    }

    /** Returns an extent to the free list and joins it with its neighbours. */
    method GiveExtent(off: nat, size: nat)
      requires off !in free && FreeOk(free[off := size], region, off, true, true)
      requires Partition(free[off := size], blocks, region)
      modifies this`free
      ensures Coalesced(free, region) && Partition(free, blocks, region)
    {
      hide FreeOk, Partition;
      free := free[off := size];
      JoinNext(off);
      JoinPrevious(off);
    }

    /** Joins the extent at `off` with the one that starts where it ends. */
    method JoinNext(off: nat)
      requires off in free && FreeOk(free, region, off, true, true) && Partition(free, blocks, region)
      modifies this`free
      ensures off in free && FreeOk(free, region, off, true, false) && Partition(free, blocks, region)
    {
      hide FreeOk, Partition;
      var hasNext, next := LowerBound(free, off + 1);
      if hasNext && off + free[off] == next {
        MergedRight(free, region, off, next);
        MergedPartition(free, blocks, region, off, next);
        ghost var merged := Merged(free, off, next);
        free := free[off := free[off] + free[next]];
        free := free - {next};
        assert free == merged;
      } else {
        NextTouches(free, region, off, hasNext, next);
        NoRight(free, region, off);
      }
    }

    /** Joins the extent at `off` with the one that ends where it starts. */
    method JoinPrevious(off: nat)
      requires off in free && FreeOk(free, region, off, true, false) && Partition(free, blocks, region)
      modifies this`free
      ensures Coalesced(free, region) && Partition(free, blocks, region)
    {
      hide FreeOk, Partition;
      var hasPrevious, previous := Previous(free, off);
      if hasPrevious && previous + free[previous] == off {
        MergedLeft(free, region, previous, off);
        MergedPartition(free, blocks, region, previous, off);
        ghost var merged := Merged(free, previous, off);
        free := free[previous := free[previous] + free[off]];
        free := free - {off};
        assert free == merged;
      } else {
        PreviousTouches(free, region, off, hasPrevious, previous);
        NoLeft(free, region, off);
      }
    }

    /** Frees the block if nothing holds it any more. */
    method ReleaseIfUnused(id: nat)
      requires Sound()
      modifies this`free, this`blocks, this`inUse, this`byAddress
      ensures Sound()
      ensures blocks == if id in old(blocks) && LocalOf(old(blocks), id) == 0 && PeerOf(old(blocks), id) == 0
                        then old(blocks) - {id} else old(blocks)
      ensures forall a :: a in byAddress ==> a in old(byAddress) && byAddress[a] == old(byAddress)[a]
      ensures blocks == old(blocks) ==> free == old(free) && byAddress == old(byAddress) && inUse == old(inUse)
    {
      hide Aligned, Partition, FreeOk, BlocksOk, LayoutOk;
      if id !in blocks || blocks[id].localRefs != 0 || blocks[id].peerHolds != 0 {
        return;
      }
      var block := blocks[id];
      GiveBack(free, blocks, region, id);
      SumSizesFrame(blocks, blocks - {id}, id, nextBlock);
      OffsetsDistinct(free, blocks, region, id);
      blocks := blocks - {id};
      byAddress := byAddress - {block.off};
      inUse := inUse - block.size;
      GiveExtent(block.off, block.size);
      LayoutFrom(free, blocks, region);
    }

    /** Replaces a block's counters, leaving where it lies alone. */
    method SetCounters(id: nat, localRefs: nat, peerHolds: nat)
      requires Sound() && id in blocks && (localRefs > 0 ==> blocks[id].localRefs > 0)
      modifies this`blocks
      ensures Sound()
      ensures blocks == old(blocks)[id := old(blocks)[id].(localRefs := localRefs, peerHolds := peerHolds)]
    {
      hide LayoutOk;
      var b := blocks[id].(localRefs := localRefs, peerHolds := peerHolds);
      SamePlaceLayout(free, blocks, region, id, b);
      SumSizesFrame(blocks, blocks[id := b], id, nextBlock);
      blocks := blocks[id := b];
    }

    /** A payload viewing the block on this side is gone. */
    method DropLocal(id: nat)
      requires Valid()
      modifies this`free, this`blocks, this`inUse, this`byAddress
      ensures Valid()
      ensures forall i ::
        LocalOf(blocks, i) == LocalOf(old(blocks), i) - (if i == id && LocalOf(old(blocks), i) > 0 then 1 else 0)
      ensures forall i :: PeerOf(blocks, i) == PeerOf(old(blocks), i)
      ensures SamePlaces(old(blocks), blocks) && blocks.Keys <= old(blocks.Keys)
      ensures old(ScopesMatch()) ==> ScopesMatch()
    {
      hide LayoutOk, Addressed, Uses;
      if id in blocks && blocks[id].localRefs != 0 {
        SetCounters(id, blocks[id].localRefs - 1, blocks[id].peerHolds);
        ReleaseIfUnused(id);
      }
    }

    /** The peer has finished with one send of the block. */
    method DropPeerHold(id: nat)
      requires Sound() && Held()
      modifies this`free, this`blocks, this`inUse, this`byAddress
      ensures Sound() && Held()
      ensures forall i :: LocalOf(blocks, i) == LocalOf(old(blocks), i)
      ensures forall i ::
        PeerOf(blocks, i) == PeerOf(old(blocks), i) - (if i == id && PeerOf(old(blocks), i) > 0 then 1 else 0)
      ensures SamePlaces(old(blocks), blocks) && blocks.Keys <= old(blocks.Keys)
    {
      hide LayoutOk, Addressed;
      if id in blocks && blocks[id].peerHolds != 0 {
        SetCounters(id, blocks[id].localRefs, blocks[id].peerHolds - 1);
        ReleaseIfUnused(id);
      }
    }

    /** A release frame. On a coordinator, whose worker never sends one, it would break the match
        between holds and scopes exactly when it names a block that a scope still uses. */
    method OnReleaseFrame(id: nat)
      requires Valid()
      modifies this`free, this`blocks, this`inUse, this`byAddress
      ensures Valid()
      ensures forall i :: LocalOf(blocks, i) == LocalOf(old(blocks), i)
      ensures forall i ::
        PeerOf(blocks, i) == PeerOf(old(blocks), i) - (if i == id && PeerOf(old(blocks), i) > 0 then 1 else 0)
      ensures old(ScopesMatch()) ==> (ScopesMatch() <==> PeerOf(old(blocks), id) == 0)
    {
      hide LayoutOk, Addressed, Uses;
      DropPeerHold(id);
      assert old(ScopesMatch()) ==> PeerOf(old(blocks), id) == Uses(scopes, bound, id);
      assert ScopesMatch() ==> PeerOf(blocks, id) == Uses(scopes, bound, id);
    }

    /** Puts a payload where the peer can read it: the in-place buffer it already lies in, a new block,
        or, when nothing fits, the fallback stream. */
    method Send(address: Option<nat>, bytes: nat, scope: nat) returns (r: Reference)
      requires Valid()
      modifies this
      ensures Valid() && role == old(role) && own == old(own)
      ensures r.Streamed? ==> blocks == old(blocks) && scopes == old(scopes)
      ensures r.Streamed? <==> !(address.Some? && address.value in old(byAddress))
                               && (!own || !Room(old(blocks), region, bytes))
      ensures r.InRegion? ==>
        && r.id in blocks && blocks[r.id].off == r.off
        && PlacedAt(old(blocks), blocks, old(byAddress), address, bytes, region, r.id)
        && (forall i :: PeerOf(blocks, i) == PeerOf(old(blocks), i) + (if i == r.id then 1 else 0))
        && (forall i :: LocalOf(blocks, i) == LocalOf(old(blocks), i))
        && SamePlaces(old(blocks), blocks)
        && scopes == if role == Coordinator
                     then old(scopes)[scope := (if scope in old(scopes) then old(scopes)[scope] else []) + [r.id]]
                     else old(scopes)
      ensures role == Coordinator && old(ScopesMatch()) ==> ScopesMatch()
    {
      hide Sound, Uses, Gap, Fits, Room, PlacedAt;
      var id := Place(address, bytes);
      if id == 0 {
        return Streamed;
      }
      ghost var mid := blocks;
      SetCounters(id, blocks[id].localRefs, blocks[id].peerHolds + 1);
      PlacedKept(old(blocks), mid, blocks, byAddress, address, bytes, region, id);
      if role == Coordinator {
        Record(scope, id);
      }
      return InRegion(id, blocks[id].off);
    }

    /** The block a payload already lies in, or a new one. */
    method Place(address: Option<nat>, bytes: nat) returns (id: nat)
      requires Valid()
      modifies this`free, this`blocks, this`inUse, this`nextBlock
      ensures Sound()
      ensures id == 0 <==> !(address.Some? && address.value in byAddress)
                           && (!own || !Room(old(blocks), region, bytes))
      ensures id == 0 ==> blocks == old(blocks)
      ensures id != 0 ==> id in blocks && blocks == old(blocks)[id := blocks[id]]
      ensures id != 0 ==> PlacedAt(old(blocks), blocks, byAddress, address, bytes, region, id)
      ensures id != 0 && id in old(blocks) ==> blocks == old(blocks)
      ensures id != 0 && id !in old(blocks) ==> blocks[id].localRefs == blocks[id].peerHolds == 0
    {
      hide LayoutOk, Addressed, Uses, Gap, Fits, Room;
      if address.Some? && address.value in byAddress {
        LookedUp(address.value);
        return byAddress[address.value];
      }
      id := AllocateBlock(bytes);
    }

    /** Notes one more use of the block by the request. */
    method Record(scope: nat, id: nat)
      requires forall s :: s in scopes ==> s < bound
      modifies this`scopes, this`bound
      ensures forall s :: s in scopes ==> s < bound
      ensures scopes == old(scopes)[scope := (if scope in old(scopes) then old(scopes)[scope] else []) + [id]]
      ensures forall i :: Uses(scopes, bound, i) == Uses(old(scopes), old(bound), i) + (if i == id then 1 else 0)
    {
      hide Uses;
      var list := if scope in scopes then scopes[scope] else [];
      ghost var wider := if scope < bound then bound else scope + 1;
      forall i
        ensures Uses(scopes[scope := list + [id]], wider, i) == Uses(scopes, bound, i) + (if i == id then 1 else 0)
      {
        UsesAdded(scopes, bound, wider, scope, list, id, i);
      }
      scopes, bound := scopes[scope := list + [id]], wider;
    }

    lemma LookedUp(a: nat)
      requires Addressed() && Sound() && a in byAddress
      ensures byAddress[a] in blocks && blocks[byAddress[a]].off == a && byAddress[a] != 0
    {
    }

    /** Allocates a buffer to be written in place, held by the one view that is returned. */
    method Allocate(bytes: nat) returns (r: Option<nat>)
      requires Valid()
      modifies this`free, this`blocks, this`inUse, this`nextBlock, this`byAddress
      ensures Valid()
      ensures r.None? ==> blocks == old(blocks)
      ensures r.None? <==> bytes == 0 || !own || !Room(old(blocks), region, bytes)
      ensures r.Some? ==>
        && r.value !in old(blocks) && r.value in blocks
        && Fits(bytes, blocks[r.value].size) && Gap(old(blocks), region, blocks[r.value].off, blocks[r.value].size)
        && blocks == old(blocks)[r.value := Block(blocks[r.value].off, blocks[r.value].size, 1, 0)]
        && byAddress == old(byAddress)[blocks[r.value].off := r.value]
      ensures old(ScopesMatch()) ==> ScopesMatch()
    {
      hide LayoutOk, Uses, Gap, Fits, Room;
      if bytes == 0 || !own {
        return None;
      }
      var id := AllocateBlock(bytes);
      if id == 0 {
        return None;
      }
      HoldFirst(id);
      return Some(id);
    }

    /** The first hold on this side of a new block, which can be looked up from then on. */
    method HoldFirst(id: nat)
      requires Sound() && id in blocks && blocks[id].localRefs == 0
      modifies this`blocks, this`byAddress
      ensures Sound()
      ensures blocks == old(blocks)[id := old(blocks)[id].(localRefs := 1)]
      ensures byAddress == old(byAddress)[blocks[id].off := id]
    {
      hide LayoutOk;
      OffsetsDistinct(free, blocks, region, id);
      var b := blocks[id].(localRefs := 1);
      SamePlaceLayout(free, blocks, region, id, b);
      SumSizesFrame(blocks, blocks[id := b], id, nextBlock);
      blocks := blocks[id := b];
      byAddress := byAddress[b.off := id];
    }

    /** The worker has finished with a request: its scope's holds are dropped. */
    method EndScope(scope: nat)
      requires Valid()
      modifies this
      ensures Valid() && role == old(role) && own == old(own) && scopes == old(scopes) - {scope}
      ensures forall i :: LocalOf(blocks, i) == LocalOf(old(blocks), i)
      ensures SamePlaces(old(blocks), blocks) && blocks.Keys <= old(blocks.Keys)
      ensures old(ScopesMatch()) ==> ScopesMatch()
    {
      hide LayoutOk, Addressed, Uses;
      if scope !in scopes {
        return;
      }
      var list := scopes[scope];
      ghost var after := scopes - {scope};
      forall i
        ensures Uses(scopes, bound, i) == Uses(after, bound, i) + multiset(list)[i]
      {
        UsesFrame(scopes, after, scope, bound, i);
      }
      DropAll(list);
      scopes := scopes - {scope};
    }

    /** Drops one peer hold for each entry of a scope. */
    method DropAll(list: seq<nat>)
      requires Sound() && Held()
      modifies this`free, this`blocks, this`inUse, this`byAddress
      ensures Sound() && Held()
      ensures forall i :: LocalOf(blocks, i) == LocalOf(old(blocks), i)
      ensures forall i :: PeerOf(blocks, i) == Minus(PeerOf(old(blocks), i), multiset(list)[i])
      ensures SamePlaces(old(blocks), blocks) && blocks.Keys <= old(blocks.Keys)
    {
      hide LayoutOk, Addressed;
      var j := 0;
      assert list[..0] == [];
      while j < |list|
        invariant 0 <= j <= |list| && Sound() && Held()
        invariant forall i :: LocalOf(blocks, i) == LocalOf(old(blocks), i)
        invariant SamePlaces(old(blocks), blocks) && blocks.Keys <= old(blocks.Keys)
        invariant forall i :: PeerOf(blocks, i) == Minus(PeerOf(old(blocks), i), multiset(list[..j])[i])
      {
        assert list[..j + 1] == list[..j] + [list[j]];
        DropPeerHold(list[j]);
        j := j + 1;
      }
      assert list[..j] == list;
    }

    /** The peer is gone: whatever it held is dropped, and only locally held blocks stay. */
    method OnClosed()
      requires Valid()
      modifies this
      ensures Valid() && ScopesMatch() && scopes == map[] && role == old(role) && own == old(own)
      ensures forall id :: id in blocks <==> id in old(blocks) && old(blocks)[id].localRefs > 0
      ensures forall id :: id in blocks ==> blocks[id] == old(blocks)[id].(peerHolds := 0)
    {
      hide LayoutOk, Addressed, Uses, Sound;
      scopes := map[];
      ClearPeerHolds();
      ReleaseAll();
      forall i ensures Uses(scopes, bound, i) == 0 { UsesNone(scopes, bound, i); }
    }

    /** Forgets every hold the peer has. */
    method ClearPeerHolds()
      requires Sound()
      modifies this`blocks
      ensures Sound() && blocks.Keys == old(blocks.Keys)
      ensures forall id :: id in blocks ==> blocks[id] == old(blocks)[id].(peerHolds := 0)
    {
      hide LayoutOk, Addressed;
      var todo := blocks.Keys;
      while todo != {}
        invariant todo <= blocks.Keys == old(blocks.Keys) && Sound()
        invariant forall id :: id in todo ==> blocks[id] == old(blocks)[id]
        invariant forall id :: id in blocks && id !in todo ==> blocks[id] == old(blocks)[id].(peerHolds := 0)
        decreases |todo|
      {
        var id :| id in todo;
        SetCounters(id, blocks[id].localRefs, 0);
        todo := todo - {id};
      }
    }

    /** Releases every block without a hold. */
    method ReleaseAll()
      requires Sound() && forall id :: id in blocks ==> blocks[id].peerHolds == 0
      modifies this`free, this`blocks, this`inUse, this`byAddress
      ensures Sound() && Held()
      ensures forall id :: id in blocks <==> id in old(blocks) && old(blocks)[id].localRefs > 0
      ensures forall id :: id in blocks ==> blocks[id] == old(blocks)[id]
    {
      hide LayoutOk, Addressed;
      var todo := blocks.Keys;
      while todo != {}
        invariant Sound() && todo <= blocks.Keys <= old(blocks.Keys)
        invariant forall id :: id in blocks ==> blocks[id] == old(blocks)[id]
        invariant forall id :: id in old(blocks) && id !in todo ==> (id in blocks <==> old(blocks)[id].localRefs > 0)
        decreases |todo|
      {
        var id :| id in todo;
        ReleaseIfUnused(id);
        todo := todo - {id};
      }
    }

    /** The strategy lets go of its region; live buffers keep theirs mapped. */
    method Detach()
      requires Valid()
      modifies this`own
      ensures Valid() && !own && old(ScopesMatch()) == ScopesMatch()
    {
      own := false;
    }
  }

  /** A coordinator that has sent one payload and receives a release frame for it: the hold is gone, yet the scope
      still counts it, and ending the scope finds nothing to drop. */
  method StrayRelease() returns (s: State, id: nat)
    ensures s.Valid() && s.role == Coordinator && s.scopes == map[0 := [id]]
    ensures PeerOf(s.blocks, id) == 0 && !s.ScopesMatch()
  {
    hide LayoutOk, Gap, Uses;
    s := new State(ALIGNMENT, Coordinator);
    WholeRegionFree(s);
    var r := s.Send(None, 1, 0);
    id := r.id;
    assert [] + [id] == [id];
    assert s.scopes == map[0 := [id]];
    s.OnReleaseFrame(id);
  }

  lemma WholeRegionFree(s: State)
    requires s.region == ALIGNMENT && s.blocks == map[]
    ensures Room(s.blocks, s.region, 1)
  {
    assert Fits(1, ALIGNMENT) && Gap(s.blocks, s.region, 0, ALIGNMENT);
  }

  lemma SamePlaceLayout(free: map<nat, nat>, blocks: map<nat, Block>, region: nat, id: nat, b: Block)
    requires LayoutOk(free, blocks, region) && id in blocks && b.off == blocks[id].off && b.size == blocks[id].size
    ensures LayoutOk(free, blocks[id := b], region)
  {
    hide Aligned;
    var t := blocks[id := b];
    forall a | 0 <= a < region
      ensures InLive(t, a) <==> InLive(blocks, a)
    {
      if InLive(t, a) { var i :| i in t && Within(t[i].off, t[i].size, a); assert i in blocks; }
      if InLive(blocks, a) { var i :| i in blocks && Within(blocks[i].off, blocks[i].size, a); assert i in t; }
    }
  }

  lemma UsesAdded(scopes: map<nat, seq<nat>>, n: nat, m: nat, s: nat, list: seq<nat>, id: nat, i: nat)
    requires n <= m && s < m && forall t :: t in scopes ==> t < n
    requires list == if s in scopes then scopes[s] else []
    ensures Uses(scopes[s := list + [id]], m, i) == Uses(scopes, n, i) + (if i == id then 1 else 0)
  {
    UsesBeyond(scopes, n, m, i);
    UsesFrame(scopes, scopes[s := list + [id]], s, m, i);
  }

  lemma {:induction false} UsesNone(scopes: map<nat, seq<nat>>, n: nat, id: nat)
    requires scopes == map[]
    ensures Uses(scopes, n, id) == 0
  {
    if n > 0 { UsesNone(scopes, n - 1, id); }
  }

  lemma LayoutFrom(free: map<nat, nat>, blocks: map<nat, Block>, region: nat)
    requires Coalesced(free, region) && BlocksOk(blocks, region) && Partition(free, blocks, region)
    ensures LayoutOk(free, blocks, region)
  {
  }

  lemma OffsetsDistinct(free: map<nat, nat>, blocks: map<nat, Block>, region: nat, id: nat)
    requires LayoutOk(free, blocks, region) && id in blocks
    ensures forall j :: j in blocks && blocks[j].off == blocks[id].off ==> j == id
  {
    forall j | j in blocks && blocks[j].off == blocks[id].off
      ensures j == id
    {
      assert Within(blocks[j].off, blocks[j].size, blocks[id].off);
      assert Within(blocks[id].off, blocks[id].size, blocks[id].off);
    }
  }

  lemma NextTouches(free: map<nat, nat>, region: nat, off: nat, found: bool, next: nat)
    requires off in free && FreeOk(free, region, off, true, true)
    requires found <==> exists k :: k in free && off + 1 <= k
    requires found ==> next in free && off < next && (forall k :: k in free && off + 1 <= k ==> next <= k)
    requires !(found && off + free[off] == next)
    ensures off + free[off] !in free
  {
    var end := off + free[off];
    assert Aligned(off, free[off]);
    if end in free {
      assert end >= off + 1;
      assert next <= end;
      assert Aligned(next, free[next]);
    }
  }

  lemma PreviousTouches(free: map<nat, nat>, region: nat, off: nat, found: bool, previous: nat)
    requires off in free && FreeOk(free, region, off, true, false)
    requires found <==> exists k :: k in free && k < off
    requires found ==> previous in free && previous < off && (forall k :: k in free && k < off ==> k <= previous)
    requires !(found && previous + free[previous] == off)
    ensures forall o :: o in free && o < off ==> o + free[o] != off
  {
    hide Aligned;
  }

  lemma OffsetInRegion(free: map<nat, nat>, blocks: map<nat, Block>, region: nat, o: nat)
    requires LayoutOk(free, blocks, region) && o in free
    ensures o < region
  {
  }

  /** If every free extent before `from` is too small, no gap starts before `from`; in particular, if
      there is no extent from `from` on, there is no gap at all. */
  lemma NoEarlierGap(free: map<nat, nat>, blocks: map<nat, Block>, region: nat, size: nat, from: nat)
    requires LayoutOk(free, blocks, region) && size > 0
    requires forall k :: k in free && k < from ==> free[k] < size
    ensures forall x :: 0 <= x < from ==> !Gap(blocks, region, x, size)
    ensures (forall k :: k in free ==> k < from) ==> forall x :: 0 <= x ==> !Gap(blocks, region, x, size)
  {
    hide Aligned;
    forall x | 0 <= x && Gap(blocks, region, x, size)
      ensures exists o :: o in free && from <= o <= x
    {
      assert forall a :: x <= a < x + size ==> InFree(free, a);
      var o := GapInOneExtent(free, region, x, size);
    }
  }
}
