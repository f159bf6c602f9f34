/** Successor lists packed into one shared arena of 16-bit entries. */
module Arena {
  const INLINE_CAP: nat := 4
  const POOL_FLAG: nat := 0x8000
  const COUNT_MASK: nat := 0x7FFF
  const HALF: nat := 0x1_0000
  const ARENA_LIMIT: nat := 0x1_0000_0000

  type U16 = x: nat | x < 0x1_0000 witness 0

  /** Twelve bytes: `size` holds the pool flag and the count; `inl` holds the entries, or in pool mode
      the block capacity and the high half of the block start. */
  datatype PoolSuccessors = PoolSuccessors(size: U16, poolIdx: U16, inl: seq<U16>) {
    function Count(): nat { size % POOL_FLAG }
    predicate IsPool() { size >= POOL_FLAG }
    function BlockStart(): nat requires |inl| == INLINE_CAP { poolIdx + HALF * inl[1] }
    function Capacity(): nat requires |inl| == INLINE_CAP { inl[0] }

    /** The start is split in two 16-bit halves; anything above 32 bits is lost. */
    function SetBlock(start: nat, capacity: U16): PoolSuccessors
      requires |inl| == INLINE_CAP
    {
      this.(poolIdx := start % HALF, inl := inl[1 := (start / HALF) % HALF][0 := capacity])
    }
  }

  const EMPTY := PoolSuccessors(0, 0, [0, 0, 0, 0])

  /** The capacities that doubling from the first block can reach. */
  predicate CapacityOk(c: nat) {
    c in {8, 16, 32, 64, 128, 256, 512, 1024, 2048, 4096, 8192, 16384, 32767}
  }

  /** The list's own view of the arena is consistent. */
  predicate ListOk(s: PoolSuccessors, arena: nat) {
    && |s.inl| == INLINE_CAP
    && (if s.IsPool()
        then CapacityOk(s.Capacity()) && s.Count() <= s.Capacity() <= 2 * s.Count() - 2
             && s.BlockStart() + s.Capacity() <= arena
        else s.Count() <= INLINE_CAP)
  }

  /** The entries in order. */
  function Items(s: PoolSuccessors, pool: seq<U16>): (r: seq<nat>)
    requires ListOk(s, |pool|)
    ensures |r| == s.Count()
    ensures forall k :: 0 <= k < |r| ==> r[k] < HALF
  {
    if s.IsPool() then pool[s.BlockStart()..s.BlockStart() + s.Count()] else s.inl[..s.Count()]
  }

  /** Position `k` of the arena belongs to the list's live block. */
  predicate InBlock(s: PoolSuccessors, k: nat) {
    |s.inl| == INLINE_CAP && s.IsPool() && s.BlockStart() <= k < s.BlockStart() + s.Capacity()
  }

  /** Beyond 32 bits the encoded start is the start modulo 2^32, so never the start. */
  lemma StartTruncated(s: PoolSuccessors, start: nat, capacity: U16)
    requires |s.inl| == INLINE_CAP
    ensures s.SetBlock(start, capacity).BlockStart() == start % ARENA_LIMIT
    ensures s.SetBlock(start, capacity).BlockStart() == start <==> start < ARENA_LIMIT
    ensures s.SetBlock(start, capacity).Capacity() == capacity
  {
  }

  /** The next entry needs a new block, and its start does not fit the 32 bits that are kept of it. */
  predicate Overflows(s: PoolSuccessors, arena: nat)
    requires |s.inl| == INLINE_CAP
  {
    && arena >= ARENA_LIMIT
    && (if s.IsPool() then s.Count() == s.Capacity() < COUNT_MASK && s.BlockStart() + s.Capacity() != arena
        else s.Count() == INLINE_CAP)
  }

  /** The list's block starts where the arena, `start` entries long, ended, but is recorded to start elsewhere. */
  predicate Lost(start: nat, s: PoolSuccessors) {
    |s.inl| == INLINE_CAP && s.IsPool() && s.BlockStart() == start % ARENA_LIMIT != start
  }

  /** The capacity after `capacity` is full. */
  function Grown(capacity: nat): (r: nat)
    requires CapacityOk(capacity) && capacity < COUNT_MASK
    ensures CapacityOk(r) && capacity < r <= 2 * capacity
  {
    if capacity > COUNT_MASK / 2 then COUNT_MASK else capacity * 2
  }

  /** Copies entries `from..from + n` of the arena to `to`, past them. */
  method CopyWithin(pool: seq<U16>, from: nat, n: nat, to: nat) returns (out: seq<U16>)
    requires from + n <= to && to + n <= |pool|
    ensures |out| == |pool| && out[..to] == pool[..to] && out[to..to + n] == pool[from..from + n]
  {
    out := pool;
    var i := 0;
    while i < n
      invariant 0 <= i <= n && |out| == |pool| && out[..to] == pool[..to]
      invariant forall j :: to <= j < to + i ==> out[j] == pool[from + (j - to)]
    {
      assert out[from + i] == out[..to][from + i];
      out := out[to + i := out[from + i]];
      i := i + 1;
    }
  }

  /** The inline entries become the head of a new block at the arena's end. */
  method Spill(s: PoolSuccessors, pool: seq<U16>) returns (t: PoolSuccessors, out: seq<U16>)
    requires ListOk(s, |pool|) && !s.IsPool() && s.Count() == INLINE_CAP
    ensures |out| == |pool| + 2 * INLINE_CAP && out[..|pool|] == pool
    ensures |t.inl| == INLINE_CAP && t.IsPool() && t.Count() == INLINE_CAP
    ensures t.BlockStart() == |pool| % ARENA_LIMIT && t.Capacity() == 2 * INLINE_CAP
    ensures out[|pool|..|pool| + INLINE_CAP] == Items(s, pool)
  {
    var n := s.Count();
    out := pool + seq(2 * INLINE_CAP, k => 0);
    var i := 0;
    while i < n
      invariant 0 <= i <= n && |out| == |pool| + 2 * INLINE_CAP
      invariant out[..|pool|] == pool
      invariant forall j :: 0 <= j < i ==> out[|pool| + j] == s.inl[j]
    {
      out := out[|pool| + i := s.inl[i]];
      i := i + 1;
    }
    assert out[|pool|..|pool| + n] == s.inl[..n];
    StartTruncated(s, |pool|, 2 * INLINE_CAP);
    t := s.SetBlock(|pool|, 2 * INLINE_CAP).(size := POOL_FLAG + n);
  }

  /** A full block gets more room: in place at the arena's end, in a new block otherwise. */
  method Grow(s: PoolSuccessors, pool: seq<U16>) returns (t: PoolSuccessors, out: seq<U16>)
    requires ListOk(s, |pool|) && s.IsPool() && s.Count() == s.Capacity() < COUNT_MASK
    ensures pool <= out
    ensures t == s.(poolIdx := t.poolIdx, inl := t.inl) && |t.inl| == INLINE_CAP
    ensures t.Capacity() == Grown(s.Capacity()) && t.BlockStart() + t.Capacity() <= |out| && ListOk(s, |pool|)
    ensures t.BlockStart() == if s.BlockStart() + s.Capacity() == |pool| then s.BlockStart() else |pool| % ARENA_LIMIT
    ensures !Overflows(s, |pool|) ==>
      t.BlockStart() + t.Capacity() == |out| && out[t.BlockStart()..t.BlockStart() + s.Count()] == Items(s, pool)
  {
    var start, capacity := s.BlockStart(), s.Capacity();
    var grown := Grown(capacity);
    if start + capacity == |pool| {
      out := pool + seq(grown - capacity, k => 0);
    } else {
      out := pool + seq(grown, k => 0);
      assert out[start..start + s.Count()] == Items(s, pool);
      out := CopyWithin(out, start, s.Count(), |pool|);
      start := |pool|;
    }
    StartTruncated(s, start, grown);
    t := s.SetBlock(start, grown);
  }

  predicate GrownFrom(before: nat, after: nat) {
    CapacityOk(before) && before < COUNT_MASK && after == Grown(before)
  }

  /** How much longer the arena is after one more entry, and how much of it the list leaves behind. */
  predicate Accounted(s: PoolSuccessors, before: nat, t: PoolSuccessors, after: nat, dead: nat)
    requires |s.inl| == |t.inl| == INLINE_CAP
  {
    if !t.IsPool() then !s.IsPool() && after == before && dead == 0
    else if !s.IsPool() then t.Capacity() == 8 && after == before + 8 && dead == 0
    else
      && after == before + t.Capacity() - s.Capacity() + dead
      && ((t.Capacity() == s.Capacity() && dead == 0) || GrownFrom(s.Capacity(), t.Capacity()))
      && (dead == 0 || dead == s.Capacity())
  }

  /** Appends `v`. Unless the start of a new block overflows, the list gains exactly `v`, no arena position outside
      its old block changes, and its new block is the old one, longer or not, or lies beyond the old arena. At 32767
      entries the push is rejected and nothing changes. `dead` is the length of the block that was left behind. */
  method PushBack(s: PoolSuccessors, v: U16, pool: seq<U16>)
    returns (t: PoolSuccessors, out: seq<U16>, ok: bool, ghost dead: nat)
    requires ListOk(s, |pool|)
    ensures ok <==> s.Count() < COUNT_MASK
    ensures !ok ==> t == s && out == pool
    ensures |out| >= |pool| && ListOk(t, |out|)
    ensures ok && !Overflows(s, |pool|) ==> Items(t, out) == Items(s, pool) + [v]
    ensures !Overflows(s, |pool|) ==> forall k: nat :: k < |pool| && !InBlock(s, k) ==> out[k] == pool[k]
    ensures !Overflows(s, |pool|) ==> forall k: nat :: InBlock(t, k) && k < |pool| ==> InBlock(s, k)
    ensures ok && !Overflows(s, |pool|) ==> Accounted(s, |pool|, t, |out|, dead)
    ensures Overflows(s, |pool|) ==> Lost(|pool|, t)
  {
    hide CapacityOk, Grown;
    var n := s.Count();
    t, out, ok, dead := s, pool, true, 0;
    if !s.IsPool() {
      if n < INLINE_CAP {
        t := s.(inl := s.inl[n := v], size := n + 1);
        InlinePushed(s, v, pool, t);
        return;
      }
      t, out, dead := SpillAppend(s, pool, v);
      return;
    }
    if n == COUNT_MASK {
      ok := false;
      return;
    }
    t, out, dead := Append(t, out, v);
  }

  lemma InlinePushed(s: PoolSuccessors, v: U16, pool: seq<U16>, t: PoolSuccessors)
    requires ListOk(s, |pool|) && !s.IsPool() && s.Count() < INLINE_CAP
    requires t == s.(inl := s.inl[s.Count() := v], size := s.Count() + 1)
    ensures ListOk(t, |pool|) && !t.IsPool() && Items(t, pool) == Items(s, pool) + [v]
  {
  }

  /** The fifth entry: spill, then store behind the four. */
  method SpillAppend(s: PoolSuccessors, pool: seq<U16>, v: U16)
    returns (t: PoolSuccessors, out: seq<U16>, ghost dead: nat)
    requires ListOk(s, |pool|) && !s.IsPool() && s.Count() == INLINE_CAP
    ensures |out| >= |pool| && ListOk(t, |out|)
    ensures !Overflows(s, |pool|) ==>
      && Items(t, out) == Items(s, pool) + [v]
      && (forall k: nat :: k < |pool| && !InBlock(s, k) ==> out[k] == pool[k])
      && (forall k: nat :: InBlock(t, k) && k < |pool| ==> InBlock(s, k))
      && Accounted(s, |pool|, t, |out|, dead)
    ensures Overflows(s, |pool|) ==> Lost(|pool|, t)
  {
    hide Items, Grown, GrownFrom;
    var spilled, longer := Spill(s, pool);
    t, out, dead := Append(spilled, longer, v);
  }

  lemma FullListOk(s: PoolSuccessors, arena: nat)
    requires |s.inl| == INLINE_CAP && s.IsPool() && CapacityOk(s.Capacity()) && s.Count() == s.Capacity()
    requires s.BlockStart() + s.Capacity() <= arena
    ensures ListOk(s, arena)
  {
  }

  /** The pool-mode part: grow when full, then store. */
  method Append(s: PoolSuccessors, pool: seq<U16>, v: U16)
    returns (t: PoolSuccessors, out: seq<U16>, ghost dead: nat)
    requires |s.inl| == INLINE_CAP && s.IsPool() && s.Count() < COUNT_MASK
    requires CapacityOk(s.Capacity()) && s.Count() <= s.Capacity() <= 2 * s.Count()
    requires s.BlockStart() + s.Capacity() <= |pool|
    ensures |out| >= |pool| && ListOk(t, |out|) && t.IsPool() && t.Count() == s.Count() + 1
    ensures !Overflows(s, |pool|) ==>
      && Items(t, out) == pool[s.BlockStart()..s.BlockStart() + s.Count()] + [v]
      && (forall k: nat :: k < |pool| && !InBlock(s, k) ==> out[k] == pool[k])
      && (forall k: nat :: InBlock(t, k) && k < |pool| ==> InBlock(s, k))
      && |out| == |pool| + t.Capacity() - s.Capacity() + dead
    ensures Overflows(s, |pool|) ==> t.BlockStart() == |pool| % ARENA_LIMIT
    ensures (t.Capacity() == s.Capacity() && dead == 0) || GrownFrom(s.Capacity(), t.Capacity())
    ensures dead == 0 || dead == s.Capacity()
    ensures s.Count() < s.Capacity() ==>
      t.BlockStart() == s.BlockStart() && t.Capacity() == s.Capacity() && |out| == |pool|
  {
    hide CapacityOk, Items, Grown;
    dead := 0;
    if s.Count() < s.Capacity() {
      t, out := Store(s, pool, v);
      return;
    }
    FullListOk(s, |pool|);
    PoolItems(s, pool);
    var grown, longer := Grow(s, pool);
    dead := if grown.BlockStart() == s.BlockStart() then 0 else s.Capacity();
    GrownBounds(s.Capacity());
    t, out := Store(grown, longer, v);
  }

  lemma PoolItems(s: PoolSuccessors, pool: seq<U16>)
    requires ListOk(s, |pool|) && s.IsPool()
    ensures Items(s, pool) == pool[s.BlockStart()..s.BlockStart() + s.Count()]
  {
  }

  lemma GrownBounds(capacity: nat)
    requires CapacityOk(capacity) && capacity < COUNT_MASK
    ensures CapacityOk(Grown(capacity)) && capacity < Grown(capacity) <= 2 * capacity && GrownFrom(capacity, Grown(capacity))
  {
  }

  /** Writes `v` behind the entries of a block that has room. */
  method Store(s: PoolSuccessors, pool: seq<U16>, v: U16) returns (t: PoolSuccessors, out: seq<U16>)
    requires |s.inl| == INLINE_CAP && s.IsPool() && s.Count() < s.Capacity() <= 2 * s.Count()
    requires CapacityOk(s.Capacity()) && s.BlockStart() + s.Capacity() <= |pool|
    ensures |out| == |pool| && ListOk(t, |out|) && t == s.(size := t.size)
    ensures t.IsPool() && t.Count() == s.Count() + 1 && t.BlockStart() == s.BlockStart() && t.Capacity() == s.Capacity()
    ensures Items(t, out) == pool[s.BlockStart()..s.BlockStart() + s.Count()] + [v]
    ensures forall k: nat :: k < |pool| && !InBlock(s, k) ==> out[k] == pool[k]
  {
    var n := s.Count();
    out := pool[s.BlockStart() + n := v];
    t := s.(size := POOL_FLAG + (n + 1));
    assert out[s.BlockStart()..s.BlockStart() + n] == pool[s.BlockStart()..s.BlockStart() + n];
  }
}
