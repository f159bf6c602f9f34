/** Successor lists of a pipeline graph, read as an edge multigraph: node `u` has one edge per
    entry of `g[u]`, so a repeated successor is a repeated edge. */
module Graphs {

  type Graph = seq<seq<nat>>

  predicate WellFormed(g: Graph) {
    forall u, k :: 0 <= u < |g| && 0 <= k < |g[u]| ==> g[u][k] < |g|
  }

  /** A cut says how many of each node's leading out-edges have been consumed. */
  predicate IsCut(g: Graph, cut: seq<nat>) {
    |cut| == |g| && forall u :: 0 <= u < |g| ==> cut[u] <= |g[u]|
  }

  /** The number of edges into `v`, from the first `n` nodes, that the cut has not consumed. */
  function OpenFrom(g: Graph, cut: seq<nat>, v: nat, n: nat): nat
    requires IsCut(g, cut) && n <= |g|
  {
    if n == 0 then 0 else OpenFrom(g, cut, v, n - 1) + multiset(g[n - 1][cut[n - 1]..])[v]
  }

  function Open(g: Graph, cut: seq<nat>, v: nat): nat
    requires IsCut(g, cut)
  {
    OpenFrom(g, cut, v, |g|)
  }

  function NoCut(g: Graph): (cut: seq<nat>)
    ensures IsCut(g, cut)
  {
    seq(|g|, u => 0)
  }

  /** In-degree with multiplicity. */
  function InDegree(g: Graph, v: nat): nat {
    Open(g, NoCut(g), v)
  }

  /** Consuming one more edge of `u` lowers the open count of exactly that edge's target by one. */
  lemma {:induction false} OpenFromAdvance(g: Graph, cut: seq<nat>, u: nat, v: nat, n: nat)
    requires IsCut(g, cut) && n <= |g| && u < |g| && cut[u] < |g[u]|
    ensures IsCut(g, cut[u := cut[u] + 1])
    ensures OpenFrom(g, cut, v, n)
         == OpenFrom(g, cut[u := cut[u] + 1], v, n) + (if u < n && g[u][cut[u]] == v then 1 else 0)
  {
    if n > 0 {
      OpenFromAdvance(g, cut, u, v, n - 1);
      if u == n - 1 {
        assert g[u][cut[u]..] == [g[u][cut[u]]] + g[u][cut[u] + 1..];
      }
    }
  }

  lemma OpenAdvance(g: Graph, cut: seq<nat>, u: nat, v: nat)
    requires IsCut(g, cut) && u < |g| && cut[u] < |g[u]|
    ensures IsCut(g, cut[u := cut[u] + 1])
    ensures Open(g, cut, v) == Open(g, cut[u := cut[u] + 1], v) + (if g[u][cut[u]] == v then 1 else 0)
  {
    OpenFromAdvance(g, cut, u, v, |g|);
  }

  lemma {:induction false} OpenFromPositive(g: Graph, cut: seq<nat>, u: nat, k: nat, n: nat)
    requires IsCut(g, cut) && u < n <= |g| && cut[u] <= k < |g[u]|
    ensures OpenFrom(g, cut, g[u][k], n) >= 1
  {
    if u == n - 1 {
      assert g[u][cut[u]..][k - cut[u]] == g[u][k];
    } else {
      OpenFromPositive(g, cut, u, k, n - 1);
    }
  }

  /** An edge the cut has not consumed keeps its target's open count positive. */
  lemma OpenPositive(g: Graph, cut: seq<nat>, u: nat, k: nat)
    requires IsCut(g, cut) && u < |g| && cut[u] <= k < |g[u]|
    ensures Open(g, cut, g[u][k]) >= 1
  {
    OpenFromPositive(g, cut, u, k, |g|);
  }

  /** A zero open count means every edge into `v` has been consumed. */
  lemma OpenZero(g: Graph, cut: seq<nat>, v: nat)
    requires IsCut(g, cut) && Open(g, cut, v) == 0
    ensures forall u, k :: 0 <= u < |g| && 0 <= k < |g[u]| && g[u][k] == v ==> k < cut[u]
  {
    forall u, k | 0 <= u < |g| && 0 <= k < |g[u]| && g[u][k] == v
      ensures k < cut[u]
    {
      if cut[u] <= k { OpenPositive(g, cut, u, k); }
    }
  }

  lemma {:induction false} OpenFromWitness(g: Graph, cut: seq<nat>, v: nat, n: nat) returns (u: nat, k: nat)
    requires IsCut(g, cut) && n <= |g| && OpenFrom(g, cut, v, n) > 0
    ensures u < n && cut[u] <= k < |g[u]| && g[u][k] == v
  {
    if v in multiset(g[n - 1][cut[n - 1]..]) {
      u := n - 1;
      var j :| 0 <= j < |g[u][cut[u]..]| && g[u][cut[u]..][j] == v;
      k := cut[u] + j;
    } else {
      u, k := OpenFromWitness(g, cut, v, n - 1);
    }
  }

  /** A positive open count exhibits an edge that the cut has not consumed. */
  lemma OpenWitness(g: Graph, cut: seq<nat>, v: nat) returns (u: nat, k: nat)
    requires IsCut(g, cut) && Open(g, cut, v) > 0
    ensures u < |g| && cut[u] <= k < |g[u]| && g[u][k] == v
  {
    u, k := OpenFromWitness(g, cut, v, |g|);
  }

  ghost predicate IsEdge(g: Graph, u: nat, v: nat) {
    u < |g| && v in g[u]
  }

  /** A walk along edges; a single node is a walk. */
  ghost predicate IsPath(g: Graph, p: seq<nat>) {
    && |p| > 0
    && (forall i :: 0 <= i < |p| ==> p[i] < |g|)
    && (forall i :: 0 <= i < |p| - 1 ==> p[i + 1] in g[p[i]])
  }

  ghost predicate Reaches(g: Graph, u: nat, v: nat) {
    exists p :: IsPath(g, p) && p[0] == u && p[|p| - 1] == v
  }

  ghost predicate Acyclic(g: Graph) {
    forall p :: IsPath(g, p) && |p| > 1 ==> p[0] != p[|p| - 1]
  }
}
