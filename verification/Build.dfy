/** Building a pipeline's graph in place, validating it, and caching its roots. */
module Build {
  import opened Jobs
  import opened Graphs
  import opened Arena
  import Kahn
  import Scheduler

  // ---- The packed lists as a graph ----

  predicate ListsOk(lists: seq<PoolSuccessors>, arena: nat) {
    forall i :: 0 <= i < |lists| ==> ListOk(lists[i], arena)
  }

  function GraphOf(lists: seq<PoolSuccessors>, pool: seq<U16>): (g: Graph)
    requires ListsOk(lists, |pool|)
    ensures |g| == |lists|
    ensures forall i :: 0 <= i < |g| ==> g[i] == Items(lists[i], pool)
  {
    seq(|lists|, i requires 0 <= i < |lists| => Items(lists[i], pool))
  }

  /** No arena position belongs to two live blocks. */
  ghost predicate Disjoint(lists: seq<PoolSuccessors>) {
    forall i, j, k: nat :: 0 <= i < |lists| && 0 <= j < |lists| && InBlock(lists[i], k) && InBlock(lists[j], k) ==> i == j
  }

  /** What a list has abandoned is less than what it holds. */
  predicate DeadOk(s: PoolSuccessors, dead: nat)
    requires |s.inl| == INLINE_CAP
  {
    if s.IsPool() then dead + 8 <= (if s.Capacity() == COUNT_MASK then POOL_FLAG else s.Capacity()) else dead == 0
  }

  function SumBlocks(lists: seq<PoolSuccessors>, dead: seq<nat>, m: nat): nat
    requires m <= |lists| == |dead| && forall i :: 0 <= i < |lists| ==> |lists[i].inl| == INLINE_CAP
  {
    if m == 0 then 0
    else SumBlocks(lists, dead, m - 1) + (if lists[m - 1].IsPool() then lists[m - 1].Capacity() + dead[m - 1] else 0)
  }

  function Edges(g: Graph): nat {
    if g == [] then 0 else Edges(g[..|g| - 1]) + |g[|g| - 1]|
  }

  ghost predicate Packed(lists: seq<PoolSuccessors>, pool: seq<U16>, dead: seq<nat>) {
    && ListsOk(lists, |pool|) && |dead| == |lists|
    && Disjoint(lists)
    && (forall i :: 0 <= i < |lists| ==> DeadOk(lists[i], dead[i]))
    && |pool| == SumBlocks(lists, dead, |lists|)
  }

  lemma {:induction false} SumBlocksUpdate(lists: seq<PoolSuccessors>, dead: seq<nat>, m: nat, i: nat, t: PoolSuccessors, d: nat)
    requires m <= |lists| == |dead| && forall i :: 0 <= i < |lists| ==> |lists[i].inl| == INLINE_CAP
    requires i < |lists| && |t.inl| == INLINE_CAP
    ensures SumBlocks(lists[i := t], dead[i := d], m) == SumBlocks(lists, dead, m)
      + (if i < m then (if t.IsPool() then t.Capacity() + d else 0)
                     - (if lists[i].IsPool() then lists[i].Capacity() + dead[i] else 0) else 0)
  {
    if m > 0 { SumBlocksUpdate(lists, dead, m - 1, i, t, d); }
  }

  lemma ItemsFramed(s: PoolSuccessors, pool: seq<U16>, out: seq<U16>)
    requires ListOk(s, |pool|) && |pool| <= |out|
    requires forall k: nat :: InBlock(s, k) ==> out[k] == pool[k]
    ensures ListOk(s, |out|) && Items(s, out) == Items(s, pool)
  {
    if s.IsPool() {
      forall k | 0 <= k < s.Count()
        ensures Items(s, out)[k] == Items(s, pool)[k]
      {
        assert InBlock(s, s.BlockStart() + k);
      }
    }
  }

  /** One accepted push: the list gains its entry, every other list reads back as before, and the
      packing invariant survives. */
  lemma PushPacked(lists: seq<PoolSuccessors>, pool: seq<U16>, dead: seq<nat>, i: nat, v: U16,
                   t: PoolSuccessors, out: seq<U16>, d: nat)
    requires Packed(lists, pool, dead) && i < |lists|
    requires |out| >= |pool| && ListOk(t, |out|) && Items(t, out) == Items(lists[i], pool) + [v]
    requires forall k: nat :: k < |pool| && !InBlock(lists[i], k) ==> out[k] == pool[k]
    requires forall k: nat :: InBlock(t, k) && k < |pool| ==> InBlock(lists[i], k)
    requires Accounted(lists[i], |pool|, t, |out|, d)
    ensures ListsOk(lists[i := t], |out|) && Packed(lists[i := t], out, dead[i := dead[i] + d])
    ensures GraphOf(lists[i := t], out) == GraphOf(lists, pool)[i := GraphOf(lists, pool)[i] + [v]]
  {
    hide CapacityOk, SumBlocks, Accounted, DeadOk, InBlock, Disjoint;
    forall j | 0 <= j < |lists| && j != i
      ensures ListOk(lists[j], |out|) && Items(lists[j], out) == Items(lists[j], pool)
    {
      OthersFramed(lists, pool, i, j, out);
    }
    DisjointKept(lists, pool, i, t);
    DeadKept(lists[i], |pool|, t, |out|, dead[i], d);
    SumKept(lists, pool, dead, i, t, |out|, d);
    assert GraphOf(lists[i := t], out) == GraphOf(lists, pool)[i := GraphOf(lists, pool)[i] + [v]];
  }

  lemma SumKept(lists: seq<PoolSuccessors>, pool: seq<U16>, dead: seq<nat>, i: nat, t: PoolSuccessors, after: nat, d: nat)
    requires Packed(lists, pool, dead) && i < |lists| && |t.inl| == INLINE_CAP && Accounted(lists[i], |pool|, t, after, d)
    ensures after == SumBlocks(lists[i := t], dead[i := dead[i] + d], |lists|)
  {
    hide CapacityOk, Disjoint, InBlock, Grown;
    SumBlocksUpdate(lists, dead, |lists|, i, t, dead[i] + d);
  }

  lemma OthersFramed(lists: seq<PoolSuccessors>, pool: seq<U16>, i: nat, j: nat, out: seq<U16>)
    requires ListsOk(lists, |pool|) && Disjoint(lists) && i < |lists| && j < |lists| && i != j && |out| >= |pool|
    requires forall k: nat :: k < |pool| && !InBlock(lists[i], k) ==> out[k] == pool[k]
    ensures ListOk(lists[j], |out|) && Items(lists[j], out) == Items(lists[j], pool)
  {
    hide CapacityOk;
    forall k: nat | InBlock(lists[j], k)
      ensures k < |pool| && out[k] == pool[k]
    {
      assert !InBlock(lists[i], k);
    }
    ItemsFramed(lists[j], pool, out);
  }

  lemma DisjointKept(lists: seq<PoolSuccessors>, pool: seq<U16>, i: nat, t: PoolSuccessors)
    requires ListsOk(lists, |pool|) && Disjoint(lists) && i < |lists|
    requires forall k: nat :: InBlock(t, k) && k < |pool| ==> InBlock(lists[i], k)
    ensures Disjoint(lists[i := t])
  {
    hide CapacityOk;
    var l := lists[i := t];
    forall a, b, k: nat | 0 <= a < |l| && 0 <= b < |l| && InBlock(l[a], k) && InBlock(l[b], k)
      ensures a == b
    {
      if a != i || b != i {
        assert InBlock(lists[a], k) && InBlock(lists[b], k);
      }
    }
  }

  lemma DeadKept(s: PoolSuccessors, before: nat, t: PoolSuccessors, after: nat, dead: nat, d: nat)
    requires ListOk(s, before) && ListOk(t, after) && Accounted(s, before, t, after, d) && DeadOk(s, dead)
    ensures DeadOk(t, dead + d)
  {
  }

  lemma {:induction false} BlocksBelowEdges(lists: seq<PoolSuccessors>, pool: seq<U16>, dead: seq<nat>, m: nat)
    requires m <= |lists| == |dead| && ListsOk(lists, |pool|)
    requires forall i :: 0 <= i < |lists| ==> DeadOk(lists[i], dead[i])
    ensures SumBlocks(lists, dead, m) <= 4 * Edges(GraphOf(lists, pool)[..m])
    ensures SumBlocks(lists, dead, m) > 0 ==> SumBlocks(lists, dead, m) < 4 * Edges(GraphOf(lists, pool)[..m])
  {
    if m > 0 {
      hide CapacityOk;
      BlocksBelowEdges(lists, pool, dead, m - 1);
      var g := GraphOf(lists, pool);
      assert g[..m][..m - 1] == g[..m - 1];
      if lists[m - 1].IsPool() { OneBlockBelow(lists[m - 1], |pool|, dead[m - 1]); }
    }
  }

  lemma OneBlockBelow(s: PoolSuccessors, arena: nat, dead: nat)
    requires ListOk(s, arena) && DeadOk(s, dead) && s.IsPool()
    ensures s.Capacity() + dead < 4 * s.Count()
  {
  }

  /** Once any list has spilled, the arena holds fewer than four entries per stored edge. */
  lemma ArenaBound(lists: seq<PoolSuccessors>, pool: seq<U16>, dead: seq<nat>)
    requires Packed(lists, pool, dead) && pool != []
    ensures |pool| < 4 * Edges(GraphOf(lists, pool))
  {
    BlocksBelowEdges(lists, pool, dead, |lists|);
    assert GraphOf(lists, pool)[..|lists|] == GraphOf(lists, pool);
  }

  /** So up to 2^30 edges every block start fits the split 32-bit encoding. */
  lemma StartsFit(lists: seq<PoolSuccessors>, pool: seq<U16>, dead: seq<nat>)
    requires Packed(lists, pool, dead) && Edges(GraphOf(lists, pool)) <= 0x4000_0000
    ensures |pool| < ARENA_LIMIT
  {
    if pool != [] { ArenaBound(lists, pool, dead); }
  }

  // ---- Roots from the end of the list on ----

  lemma RootsEnd(p: Scheduler.Plan)
    ensures Scheduler.RootsFrom(p, |p.g|) == []
  {
  }

  lemma RootsStep(p: Scheduler.Plan, i: nat)
    requires i < |p.g|
    ensures Scheduler.RootsFrom(p, i)
         == (if Scheduler.IsRoot(p, i) then [i] else []) + Scheduler.RootsFrom(p, i + 1)
  {
    hide InDegree;
    assert [] + Scheduler.RootsFrom(p, i + 1) == Scheduler.RootsFrom(p, i + 1);
  }

  // ---- In-degrees while the graph grows ----

  lemma LastTerm(g: Graph, v: nat, n: nat)
    requires 0 < n <= |g|
    ensures OpenFrom(g, NoCut(g), v, n) == OpenFrom(g, NoCut(g), v, n - 1) + multiset(g[n - 1])[v]
  {
    assert g[n - 1][NoCut(g)[n - 1]..] == g[n - 1];
  }

  lemma NoTerms(g: Graph, v: nat)
    ensures OpenFrom(g, NoCut(g), v, 0) == 0
  {
  }

  lemma {:induction false} InDegreeAddEdgeFrom(g: Graph, u: nat, w: nat, v: nat, n: nat)
    requires u < |g| && n <= |g|
    ensures OpenFrom(g[u := g[u] + [w]], NoCut(g[u := g[u] + [w]]), v, n)
         == OpenFrom(g, NoCut(g), v, n) + (if u < n && v == w then 1 else 0)
  {
    hide OpenFrom, NoCut;
    if n == 0 {
      NoTerms(g, v);
      NoTerms(g[u := g[u] + [w]], v);
    } else {
      InDegreeAddEdgeFrom(g, u, w, v, n - 1);
      var h := g[u := g[u] + [w]];
      LastTerm(g, v, n);
      LastTerm(h, v, n);
    }
  }

  /** A new edge raises the in-degree of its target, and of nobody else, by one. */
  lemma InDegreeAddEdge(g: Graph, u: nat, w: nat, v: nat)
    requires u < |g|
    ensures InDegree(g[u := g[u] + [w]], v) == InDegree(g, v) + (if v == w then 1 else 0)
  {
    InDegreeAddEdgeFrom(g, u, w, v, |g|);
  }

  lemma {:induction false} InDegreeAddNodeFrom(g: Graph, v: nat, n: nat)
    requires n <= |g|
    ensures OpenFrom(g + [[]], NoCut(g + [[]]), v, n) == OpenFrom(g, NoCut(g), v, n)
  {
    if n > 0 {
      InDegreeAddNodeFrom(g, v, n - 1);
      assert (g + [[]])[n - 1] == g[n - 1];
    }
  }

  lemma InDegreeAddNode(g: Graph, v: nat)
    ensures InDegree(g + [[]], v) == InDegree(g, v)
  {
    var h := g + [[]];
    InDegreeAddNodeFrom(g, v, |g|);
    assert h[|g|][0..] == [];
  }

  lemma InDegreeOutside(g: Graph, v: nat)
    requires WellFormed(g) && v >= |g|
    ensures InDegree(g, v) == 0
  {
    if InDegree(g, v) > 0 {
      var u, k := OpenWitness(g, NoCut(g), v);
    }
  }

  /** One entry of a list, wherever it is stored. */
  function Entry(s: PoolSuccessors, pool: seq<U16>, j: nat): (r: nat)
    requires ListOk(s, |pool|) && j < s.Count()
    ensures r == Items(s, pool)[j]
  {
    if s.IsPool() then pool[s.BlockStart() + j] else s.inl[j]
  }

  lemma PushWellFormed(g: Graph, u: nat, w: nat)
    requires WellFormed(g) && u < |g| && w < |g|
    ensures WellFormed(g[u := g[u] + [w]])
  {
  }

  /** Every predecessor count is the node's in-degree. */
  ghost predicate Counted(g: Graph, counts: seq<nat>) {
    |counts| == |g| && forall v :: 0 <= v < |g| ==> counts[v] == InDegree(g, v)
  }

  lemma CountedEdge(g: Graph, counts: seq<nat>, u: nat, w: nat)
    requires Counted(g, counts) && u < |g| && w < |g|
    ensures Counted(g[u := g[u] + [w]], counts[w := counts[w] + 1])
  {
    hide InDegree;
    forall v | 0 <= v < |g|
      ensures InDegree(g[u := g[u] + [w]], v) == InDegree(g, v) + (if v == w then 1 else 0)
    {
      InDegreeAddEdge(g, u, w, v);
    }
  }

  lemma CountedNode(g: Graph, counts: seq<nat>)
    requires Counted(g, counts) && WellFormed(g)
    ensures Counted(g + [[]], counts + [0]) && WellFormed(g + [[]])
  {
    hide InDegree;
    forall v | 0 <= v <= |g|
      ensures InDegree(g + [[]], v) == if v < |g| then InDegree(g, v) else 0
    {
      InDegreeAddNode(g, v);
      if v == |g| { InDegreeOutside(g, v); }
    }
  }

  class Pipeline {
    var lists: seq<PoolSuccessors>    // successors_ of each node
    var pool: seq<U16>                // succPool_
    var predecessors: seq<nat>        // predecessorCount_ of each node
    var optional: seq<bool>
    var onDemand: seq<bool>
    var deferred: seq<bool>
    var roots: seq<nat>
    var rootsCached: bool
    ghost var dead: seq<nat>          // arena entries each list has abandoned

    ghost predicate Stored()
      reads this`lists, this`pool, this`dead
    {
      ListsOk(lists, |pool|) && |dead| == |lists| && Packed(lists, pool, dead)
    }

    function Edged(): Graph
      requires ListsOk(lists, |pool|)
      reads this`lists, this`pool
    {
      GraphOf(lists, pool)
    }

    function Plan(): Scheduler.Plan
      requires ListsOk(lists, |pool|)
      reads this
    {
      Scheduler.Plan(Edged(), optional, onDemand, deferred)
    }

    ghost predicate Valid()
      reads this
    {
      && Stored()
      && |optional| == |onDemand| == |deferred| == |lists| <= HALF
      && WellFormed(Edged())
      && |predecessors| == |lists| && Counted(Edged(), predecessors)
      && (rootsCached ==> Acyclic(Edged()) && roots == Scheduler.Roots(Plan()))
    }

    constructor ()
      ensures Valid() && Edged() == []
    {
      lists, pool, predecessors, optional, onDemand, deferred := [], [], [], [], [], [];
      roots, rootsCached := [], false;
      dead := [];
    }

    /** Appends a node without edges; the 65537th is refused. */
    method AddNode(isOptional: bool, isOnDemand: bool, isDeferred: bool) returns (ok: bool)
      requires Valid()
      modifies this
      ensures Valid()
      ensures ok <==> old(|lists|) < HALF
      ensures ok ==> Edged() == old(Edged()) + [[]] && !rootsCached
                     && onDemand == old(onDemand) + [isOnDemand] && optional == old(optional) + [isOptional]
                     && deferred == old(deferred) + [isDeferred]
      ensures !ok ==> Edged() == old(Edged()) && rootsCached == old(rootsCached) && onDemand == old(onDemand)
    {
      hide CapacityOk, InDegree, Scheduler.Roots, Packed, Acyclic, Counted, WellFormed, ListOk, GraphOf, Items;
      if |lists| > HALF - 1 {
        return false;
      }
      AddNodePacked(lists, pool, dead);
      CountedNode(Edged(), predecessors);
      lists, predecessors := lists + [EMPTY], predecessors + [0];
      optional, onDemand, deferred := optional + [isOptional], onDemand + [isOnDemand], deferred + [isDeferred];
      rootsCached := false;
      dead := dead + [0];
      return true;
    }

    /** One more successor of node `from` can be stored where it will be found. */
    predicate RoomAfter(from: nat)
      requires ListsOk(lists, |pool|)
      reads this`lists, this`pool
    {
      from < |lists| ==> !Overflows(lists[from], |pool|)
    }

    /** Adds the edge `from` to `to`. A full successor list refuses it and leaves every list and
        count alone; either way the cached roots are dropped first. */
    method AddEdge(from: nat, to: nat) returns (ok: bool)
      requires Valid() && from < |lists| && to < |lists|
      modifies this
      ensures ok <==> |old(Edged())[from]| < COUNT_MASK
      ensures !rootsCached && onDemand == old(onDemand) && optional == old(optional) && deferred == old(deferred)
      ensures old(RoomAfter(from)) ==>
        Valid() && Edged() == if ok then old(Edged())[from := old(Edged())[from] + [to]] else old(Edged())
      ensures !old(RoomAfter(from)) ==> ok && |lists| == old(|lists|) && Lost(old(|pool|), lists[from])
    {
      hide CapacityOk, InDegree, Scheduler.Roots, Packed, Acyclic, Counted, WellFormed, ListsOk, ListOk, GraphOf, Items, Edges;
      rootsCached := false;
      ghost var g, room := Edged(), RoomAfter(from);
      ok := PushEdge(from, to);
      if ok {
        if room {
          PushWellFormed(g, from, to);
          CountedEdge(g, predecessors, from, to);
        }
        predecessors := predecessors[to := predecessors[to] + 1];
      }
    }

    /** Stores the edge in the packed lists. */
    method PushEdge(from: nat, to: nat) returns (ok: bool)
      requires Stored() && from < |lists| && to < HALF
      modifies this`lists, this`pool, this`dead
      ensures |lists| == old(|lists|)
      ensures ok <==> |old(Edged())[from]| < COUNT_MASK
      ensures old(RoomAfter(from)) ==>
        Stored() && Edged() == if ok then old(Edged())[from := old(Edged())[from] + [to]] else old(Edged())
      ensures !old(RoomAfter(from)) ==> ok && Lost(old(|pool|), lists[from])
    {
      hide CapacityOk, Packed, Accounted, InBlock, Edges, ListOk, Lost;
      var t, out;
      ghost var d;
      ghost var room := RoomAfter(from);
      t, out, ok, d := PushBack(lists[from], to, pool);
      if ok {
        if room { PushPacked(lists, pool, dead, from, to, t, out, d); }
        lists, pool, dead := lists[from := t], out, dead[from := dead[from] + d];
      }
    }

    /** self runs after other. Handles of another pipeline or out of range change nothing. */
    method Succeed(self: nat, other: nat) returns (ok: bool)
      requires Valid()
      modifies this
      ensures old(self >= |lists| || other >= |lists| || RoomAfter(other)) ==> Valid()
      ensures self < |old(lists)| && other < |old(lists)| && old(RoomAfter(other)) && ok ==>
                Edged() == old(Edged())[other := old(Edged())[other] + [self]]
      ensures self >= |old(lists)| || other >= |old(lists)| || !ok ==> Valid() && Edged() == old(Edged())
    {
      if self >= |lists| || other >= |lists| {
        return true;
      }
      ok := AddEdge(other, self);
    }

    /** self runs before other. Handles of another pipeline or out of range change nothing. */
    method Precede(self: nat, other: nat) returns (ok: bool)
      requires Valid()
      modifies this
      ensures old(self >= |lists| || other >= |lists| || RoomAfter(self)) ==> Valid()
      ensures self < |old(lists)| && other < |old(lists)| && old(RoomAfter(self)) && ok ==>
                Edged() == old(Edged())[self := old(Edged())[self] + [other]]
      ensures self >= |old(lists)| || other >= |old(lists)| || !ok ==> Valid() && Edged() == old(Edged())
    {
      if self >= |lists| || other >= |lists| {
        return true;
      }
      ok := AddEdge(self, other);
    }

    /** Counts every node's in-edges by walking all the lists. */
    method CountDegrees() returns (deg: seq<int>)
      requires ListsOk(lists, |pool|) && WellFormed(Edged())
      ensures |deg| == |lists| && forall v :: 0 <= v < |deg| ==> deg[v] == InDegree(Edged(), v)
    {
      hide CapacityOk, OpenFrom, NoCut;
      ghost var g := Edged();
      deg := seq(|lists|, v => 0);
      forall v | 0 <= v < |g| ensures OpenFrom(g, NoCut(g), v, 0) == 0 { NoTerms(g, v); }
      var u := 0;
      while u < |lists|
        invariant 0 <= u <= |lists| == |deg| && g == Edged()
        invariant forall v :: 0 <= v < |deg| ==> deg[v] == OpenFrom(g, NoCut(g), v, u)
      {
        var j := 0;
        while j < lists[u].Count()
          invariant 0 <= j <= |g[u]| && |deg| == |lists|
          invariant forall v :: 0 <= v < |deg| ==> deg[v] == OpenFrom(g, NoCut(g), v, u) + multiset(g[u][..j])[v]
        {
          var w := Entry(lists[u], pool, j);
          assert g[u][..j + 1] == g[u][..j] + [w];
          deg := deg[w := deg[w] + 1];
          j := j + 1;
        }
        assert g[u][..j] == g[u];
        forall v | 0 <= v < |g| ensures OpenFrom(g, NoCut(g), v, u + 1) == OpenFrom(g, NoCut(g), v, u) + multiset(g[u])[v] {
          LastTerm(g, v, u + 1);
        }
        u := u + 1;
      }
    }

    /** The nodes of degree zero, in index order. */
    method CollectZeros(deg: seq<int>) returns (ready: seq<nat>)
      ensures ready == Kahn.ZerosFrom(deg, 0)
    {
      ready := [];
      var i := 0;
      while i < |deg|
        invariant 0 <= i <= |deg| && ready + Kahn.ZerosFrom(deg, i) == Kahn.ZerosFrom(deg, 0)
      {
        if deg[i] == 0 {
          assert ready + ([i] + Kahn.ZerosFrom(deg, i + 1)) == (ready + [i]) + Kahn.ZerosFrom(deg, i + 1);
          ready := ready + [i];
        }
        i := i + 1;
      }
    }

    /** Kahn's algorithm: succeeds exactly on an acyclic graph, having then visited the nodes in a
        topological order. */
    method Validate() returns (r: Result, ready: seq<nat>)
      requires ListsOk(lists, |pool|) && WellFormed(Edged())
      ensures r == if Acyclic(Edged()) then Ok else Err(CyclicDependency)
      ensures ready == Kahn.Order(Edged())
      ensures r == Ok ==> Kahn.IsTopological(Edged(), ready)
    {
      hide CapacityOk, OpenFrom, NoCut, Open, InDegree, Acyclic, Kahn.WorkOk;
      ghost var g := Edged();
      var deg := CountDegrees();
      ready := CollectZeros(deg);
      var visited := 0;
      ghost var cut := NoCut(g);
      assert Kahn.Start(g).deg == deg;
      Kahn.StartOk(g);
      while visited < |ready|
        invariant Kahn.After(g, visited) == Kahn.Work(deg, ready, cut)
        invariant 0 <= visited <= |ready| && Kahn.WorkOk(g, Kahn.Work(deg, ready, cut), visited, 0)
        decreases |g| - visited
      {
        Kahn.ListBounded(g, Kahn.Work(deg, ready, cut), visited);
        var u := ready[visited];
        deg, ready, cut := VisitNode(visited, deg, ready, cut);
        visited := visited + 1;
      }
      Kahn.ExhaustedTheorem(g, Kahn.Work(deg, ready, cut));
      Kahn.AfterStable(g, visited, |g|);
      r := if visited != |lists| then Err(CyclicDependency) else Ok;
    }

    /** Consumes all the edges of worklist entry `visited`. */
    method VisitNode(visited: nat, deg: seq<int>, ready: seq<nat>, ghost cut: seq<nat>)
      returns (deg': seq<int>, ready': seq<nat>, ghost cut': seq<nat>)
      requires ListsOk(lists, |pool|) && visited < |ready|
      requires Kahn.WorkOk(Edged(), Kahn.Work(deg, ready, cut), visited, 0)
      ensures ready[visited] < |lists| && cut[ready[visited]] == 0 && ready <= ready'
      ensures Kahn.Work(deg', ready', cut')
           == Kahn.VisitTo(Edged(), Kahn.Work(deg, ready, cut), ready[visited], |Edged()[ready[visited]]|)
      ensures Kahn.WorkOk(Edged(), Kahn.Work(deg', ready', cut'), visited + 1, 0)
    {
      hide CapacityOk, OpenFrom, NoCut, Open, InDegree, Kahn.WorkOk;
      ghost var g := Edged();
      ghost var w := Kahn.Work(deg, ready, cut);
      Kahn.ListBounded(g, w, visited);
      deg', ready', cut' := deg, ready, cut;
      var u := ready[visited];
      var j := 0;
      while j < lists[u].Count()
        invariant 0 <= j <= |g[u]|
        invariant |deg'| == |g| && Kahn.VisitTo(g, w, u, j) == Kahn.Work(deg', ready', cut')
        invariant Kahn.WorkOk(g, Kahn.Work(deg', ready', cut'), visited, j) && ready <= ready'
        decreases |g[u]| - j
      {
        Kahn.ConsumeOk(g, Kahn.Work(deg', ready', cut'), visited, j);
        var v := Entry(lists[u], pool, j);
        deg' := deg'[v := deg'[v] - 1];
        if deg'[v] == 0 {
          ready' := ready' + [v];
        }
        cut' := cut'[u := cut'[u] + 1];
        j := j + 1;
      }
      Kahn.VisitDone(g, Kahn.Work(deg', ready', cut'), visited);
    }

    /** Run preparation: the cached roots are reused, or recomputed once the graph validates. */
    method PrepareRoots() returns (r: Result)
      requires Valid()
      modifies this`roots, this`rootsCached
      ensures Valid()
      ensures r == if Acyclic(Edged()) then Ok else Err(CyclicDependency)
      ensures r == Ok ==> rootsCached && roots == Scheduler.Roots(Plan())
    {
      hide CapacityOk, InDegree, Acyclic, Packed, ListsOk, ListOk, GraphOf, Items, WellFormed, Counted;
      if rootsCached {
        return Ok;
      }
      var order;
      r, order := Validate();
      if r == Ok {
        roots := CollectRoots();
        rootsCached := true;
      }
    }

    /** The nodes without predecessors that are not on-demand, in index order. */
    method CollectRoots() returns (r: seq<nat>)
      requires Valid()
      ensures r == Scheduler.Roots(Plan())
    {
      hide CapacityOk, InDegree, Acyclic, Packed, ListsOk, GraphOf, ListOk, Items, WellFormed, Scheduler.RootsFrom;
      ghost var p := Plan();
      r := [];
      RootsEnd(p);
      var i := 0;
      while i < |lists|
        invariant 0 <= i <= |lists|
        invariant r + Scheduler.RootsFrom(p, i) == Scheduler.RootsFrom(p, 0)
      {
        RootsStep(p, i);
        if predecessors[i] == 0 && !onDemand[i] {
          assert r + ([i] + Scheduler.RootsFrom(p, i + 1)) == (r + [i]) + Scheduler.RootsFrom(p, i + 1);
          r := r + [i];
        }
        i := i + 1;
      }
    }
  }

  lemma AddNodePacked(lists: seq<PoolSuccessors>, pool: seq<U16>, dead: seq<nat>)
    requires Packed(lists, pool, dead)
    ensures ListsOk(lists + [EMPTY], |pool|) && Packed(lists + [EMPTY], pool, dead + [0])
    ensures GraphOf(lists + [EMPTY], pool) == GraphOf(lists, pool) + [[]]
  {
    hide CapacityOk;
    SumBlocksPrefix(lists, dead, |lists|);
  }

  lemma {:induction false} SumBlocksPrefix(lists: seq<PoolSuccessors>, dead: seq<nat>, m: nat)
    requires m <= |lists| == |dead| && forall i :: 0 <= i < |lists| ==> |lists[i].inl| == INLINE_CAP
    ensures SumBlocks(lists + [EMPTY], dead + [0], m) == SumBlocks(lists, dead, m)
  {
    if m > 0 { SumBlocksPrefix(lists, dead, m - 1); }
  }
}
