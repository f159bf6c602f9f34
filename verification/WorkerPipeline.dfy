/** The pipeline a worker builds for a request: one optional node per job, then one push per edge. */
module WorkerPipeline {
  import opened Graphs
  import Arena
  import Build
  import Wire
  import opened Worker

  /** The successor lists after the first `i` edges of the request. */
  function Lists(w: Work, i: nat): (g: Graph)
    requires i <= |w.edges|
    ensures |g| == w.n && forall u :: 0 <= u < w.n ==> g[u] == Targets(w.edges[..i], u)
  {
    seq(w.n, u requires 0 <= u < w.n => Targets(w.edges[..i], u))
  }

  /** No job has more out-edges than a list can hold. */
  predicate ListsFit(g: Graph) {
    forall u :: 0 <= u < |g| ==> |g[u]| <= Arena.COUNT_MASK
  }

  lemma ListsNext(w: Work, i: nat)
    requires WorkOk(w) && i < |w.edges|
    ensures var e := w.edges[i];
      && e.source < w.n && e.target < w.n && e.source != e.target
      && Lists(w, i + 1) == Lists(w, i)[e.source := Lists(w, i)[e.source] + [e.target]]
  {
    var e := w.edges[i];
    assert Wire.EdgeOk(w.n, e);
    assert w.edges[..i + 1][..i] == w.edges[..i];
    var next := Lists(w, i)[e.source := Lists(w, i)[e.source] + [e.target]];
    forall u | 0 <= u < w.n ensures Lists(w, i + 1)[u] == next[u] {}
  }

  lemma ListsWhole(w: Work)
    ensures Lists(w, |w.edges|) == GraphOf(w)
    ensures Lists(w, 0) == seq(w.n, _ => [])
  {
    assert w.edges[..|w.edges|] == w.edges;
  }

  lemma ListsGrow(w: Work, i: nat)
    requires i <= |w.edges| && ListsFit(GraphOf(w))
    ensures ListsFit(Lists(w, i))
  {
    forall u | 0 <= u < w.n ensures |Lists(w, i)[u]| <= Arena.COUNT_MASK {
      TargetsGrow(w.edges, u, i);
      assert GraphOf(w)[u] == Targets(w.edges, u);
    }
  }

  lemma {:induction false} TargetsGrow(edges: seq<Wire.Edge>, u: nat, i: nat)
    requires i <= |edges|
    ensures |Targets(edges[..i], u)| <= |Targets(edges, u)|
  {
    if i < |edges| {
      var n := |edges| - 1;
      TargetsGrow(edges[..n], u, i);
      assert edges[..n][..i] == edges[..i];
    } else {
      assert edges[..i] == edges;
    }
  }

  lemma {:induction false} EdgesPushed(g: Graph, u: nat, v: nat)
    requires u < |g|
    ensures Build.Edges(g[u := g[u] + [v]]) == Build.Edges(g) + 1
  {
    var n, after := |g| - 1, g[u := g[u] + [v]];
    if u == n {
      assert after[..n] == g[..n];
    } else {
      assert after[..n] == g[..n][u := g[..n][u] + [v]] && after[n] == g[n];
      EdgesPushed(g[..n], u, v);
    }
  }

  lemma {:induction false} EdgesNone(g: Graph)
    requires forall u :: 0 <= u < |g| ==> g[u] == []
    ensures Build.Edges(g) == 0
  {
    if g != [] { EdgesNone(g[..|g| - 1]); }
  }

  method AddNodes(pipe: Build.Pipeline, n: nat)
    requires pipe.Valid() && pipe.Edged() == [] && pipe.optional == pipe.onDemand == pipe.deferred == [] && n <= Arena.HALF
    modifies pipe
    ensures pipe.Valid() && pipe.Edged() == seq(n, _ => [])
    ensures pipe.optional == seq(n, _ => true) && pipe.onDemand == seq(n, _ => false) == pipe.deferred
  {
    hide Build.Packed, Build.Counted, Acyclic, InDegree;
    for i := 0 to n
      invariant pipe.Valid() && pipe.Edged() == seq(i, _ => []) && |pipe.lists| == i
      invariant pipe.optional == seq(i, _ => true) && pipe.onDemand == seq(i, _ => false) == pipe.deferred
    {
      var ok := pipe.AddNode(true, false, false);
    }
  }

  /** Whatever the order in which a request's edges push onto the nodes' lists, each list reads back exactly its
      own targets in that order; only a job with more out-edges than a list can hold is refused. */
  method BuildPipeline(w: Work) returns (pipe: Build.Pipeline, ok: bool)
    requires WorkOk(w) && w.n <= Arena.HALF && |w.edges| <= 0x4000_0000
    ensures fresh(pipe) && pipe.Valid()
    ensures ok <==> ListsFit(GraphOf(w))
    ensures ok ==> pipe.Edged() == GraphOf(w)
    ensures ok ==> pipe.optional == seq(w.n, _ => true) && pipe.onDemand == seq(w.n, _ => false) == pipe.deferred
  {
    hide Build.Packed, Build.Counted, Acyclic, InDegree, Build.Edges, Build.GraphOf, Build.ListsOk, Arena.ListOk;
    hide Arena.CapacityOk, Targets, ListsFit, GraphOf, WellFormed, WorkOk, Lists;
    pipe := new Build.Pipeline();
    AddNodes(pipe, w.n);
    EdgesNone(pipe.Edged());
    ListsWhole(w);
    FitsEmpty(w);
    for i := 0 to |w.edges|
      invariant pipe.Valid() && pipe.Edged() == Lists(w, i) && |pipe.lists| == w.n
      invariant Build.Edges(pipe.Edged()) == i && ListsFit(Lists(w, i))
      invariant pipe.optional == seq(w.n, _ => true) && pipe.onDemand == seq(w.n, _ => false) == pipe.deferred
    {
      var e := w.edges[i];
      ListsNext(w, i);
      ListsSize(w, i);
      EdgesPushed(Lists(w, i), e.source, e.target);
      RoomLeft(pipe, e.source);
      ok := pipe.AddEdge(e.source, e.target);
      FitsNext(w, i);
      if !ok {
        if ListsFit(GraphOf(w)) { ListsGrow(w, i + 1); }
        return;
      }
      EdgedLength(pipe, w.n);
    }
    ok := true;
  }

  lemma RoomLeft(pipe: Build.Pipeline, source: nat)
    requires pipe.Valid() && Build.Edges(pipe.Edged()) <= 0x4000_0000
    ensures pipe.RoomAfter(source)
  {
    hide Build.Packed, Build.Edges, Build.Counted, WellFormed, Acyclic;
    Build.StartsFit(pipe.lists, pipe.pool, pipe.dead);
  }

  lemma ListsSize(w: Work, i: nat)
    requires i <= |w.edges|
    ensures |Lists(w, i)| == w.n
  {
  }

  lemma EdgedLength(pipe: Build.Pipeline, n: nat)
    requires pipe.Valid() && |pipe.Edged()| == n
    ensures |pipe.lists| == n
  {
  }

  lemma FitsEmpty(w: Work)
    ensures ListsFit(Lists(w, 0))
  {
  }

  /** The i-th push fits unless its list is full. */
  lemma FitsNext(w: Work, i: nat)
    requires WorkOk(w) && i < |w.edges| && w.edges[i].source < w.n && ListsFit(Lists(w, i))
    ensures ListsFit(Lists(w, i + 1)) <==> |Lists(w, i)[w.edges[i].source]| < Arena.COUNT_MASK
  {
    ListsNext(w, i);
    var e := w.edges[i];
    assert |Lists(w, i + 1)[e.source]| == |Lists(w, i)[e.source]| + 1;
  }
}
