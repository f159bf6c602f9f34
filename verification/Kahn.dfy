/** Kahn's algorithm: the worklist that validate() builds, and what its length says about cycles. */
module Kahn {
  import opened Graphs

  /** The worklist after some edges have been consumed. `cut` records which. */
  datatype Work = Work(deg: seq<int>, ready: seq<nat>, cut: seq<nat>)

  ghost predicate Sized(g: Graph, w: Work) {
    |w.deg| == |g| && IsCut(g, w.cut)
  }

  /** Nodes of in-degree zero from index `i` on, in index order. */
  function ZerosFrom(deg: seq<int>, i: nat): (r: seq<nat>)
    ensures forall v: nat :: v in r <==> i <= v < |deg| && deg[v] == 0
    ensures forall x, y :: 0 <= x < y < |r| ==> r[x] < r[y]
    decreases |deg| - i
  {
    if i >= |deg| then []
    else
      var rest := ZerosFrom(deg, i + 1);
      assert forall y :: 0 <= y < |rest| ==> rest[y] in rest;
      if deg[i] == 0 then [i] + rest else rest
  }

  function Start(g: Graph): Work {
    var deg := seq(|g|, v requires 0 <= v < |g| => InDegree(g, v));
    Work(deg, ZerosFrom(deg, 0), NoCut(g))
  }

  /** Consume edge `cut[u]` of `u`: its target becomes ready when no other edge into it is left. */
  function Consume(g: Graph, w: Work, u: nat): Work
    requires WellFormed(g) && |w.deg| == |g| && IsCut(g, w.cut) && u < |g| && w.cut[u] < |g[u]|
  {
    var v := g[u][w.cut[u]];
    Work(w.deg[v := w.deg[v] - 1],
         if w.deg[v] == 1 then w.ready + [v] else w.ready,
         w.cut[u := w.cut[u] + 1])
  }

  /** The first `j` edges of an unvisited `u` consumed. */
  function VisitTo(g: Graph, w: Work, u: nat, j: nat): (r: Work)
    requires WellFormed(g) && |w.deg| == |g| && IsCut(g, w.cut) && u < |g| && w.cut[u] == 0 && j <= |g[u]|
    ensures |r.deg| == |g| && IsCut(g, r.cut) && r.cut == w.cut[u := j]
  {
    if j == 0 then w else Consume(g, VisitTo(g, w, u, j - 1), u)
  }

  lemma VisitStep(g: Graph, w: Work, u: nat, j: nat)
    requires WellFormed(g) && |w.deg| == |g| && IsCut(g, w.cut) && u < |g| && w.cut[u] == 0 && j < |g[u]|
    ensures VisitTo(g, w, u, j + 1) == Consume(g, VisitTo(g, w, u, j), u)
  {
  }

  /** Nothing is wrong with a worklist of which the first `i` entries were visited, the next up to
      its edge `j`. */
  ghost predicate WorkOk(g: Graph, w: Work, i: nat, j: nat) {
    && WellFormed(g) && Sized(g, w) && i <= |w.ready|
    && (forall x :: 0 <= x < |w.ready| ==> w.ready[x] < |g|)
    && (forall x, y :: 0 <= x < y < |w.ready| ==> w.ready[x] != w.ready[y])
    && (forall v :: 0 <= v < |g| ==> w.deg[v] == Open(g, w.cut, v))
    && (forall v :: 0 <= v < |g| ==> (Listed(w, v) <==> w.deg[v] == 0))
    && (forall x :: 0 <= x < |w.ready| ==>
          w.cut[w.ready[x]] == if x < i then |g[w.ready[x]]| else if x == i then j else 0)
    && (forall u :: 0 <= u < |g| && !Listed(w, u) ==> w.cut[u] == 0)
    && (i < |w.ready| ==> j <= |g[w.ready[i]]|)
    && Forward(g, w.ready)
  }

  predicate Listed(w: Work, v: nat) { v in w.ready }

  /** Every edge into a listed node starts at an earlier entry. */
  ghost predicate Forward(g: Graph, order: seq<nat>) {
    forall y, u, e :: 0 <= y < |order| && 0 <= u < |g| && 0 <= e < |g[u]| && g[u][e] == order[y] ==>
      u in order[..y]
  }

  lemma StartOk(g: Graph)
    requires WellFormed(g)
    ensures WorkOk(g, Start(g), 0, 0)
  {
    hide Open, OpenFrom;
    var w := Start(g);
    forall x | 0 <= x < |w.ready|
      ensures w.ready[x] < |g| && w.deg[w.ready[x]] == 0 && w.cut[w.ready[x]] == 0
    {
      assert w.ready[x] in w.ready;
    }
    forall u, e | 0 <= u < |g| && 0 <= e < |g[u]|
      ensures w.deg[g[u][e]] != 0
    {
      OpenPositive(g, w.cut, u, e);
    }
  }

  lemma ConsumeReady(g: Graph, w: Work, i: nat, j: nat)
    requires WorkOk(g, w, i, j) && i < |w.ready| && j < |g[w.ready[i]]|
    ensures var r := Consume(g, w, w.ready[i]);
            var v := g[w.ready[i]][j];
            && Sized(g, r) && w.deg[v] >= 1 && !Listed(w, v) && w.ready <= r.ready
            && (forall x :: 0 <= x < |g| ==> r.deg[x] == Open(g, r.cut, x))
  {
    hide OpenFrom, Open, InDegree, Forward;
    var u := w.ready[i];
    OpenPositive(g, w.cut, u, j);
    forall v | 0 <= v < |g|
      ensures Open(g, w.cut, v) == Open(g, w.cut[u := j + 1], v) + (if g[u][j] == v then 1 else 0)
    {
      OpenAdvance(g, w.cut, u, v);
    }
  }

  lemma ConsumeForward(g: Graph, w: Work, i: nat, j: nat)
    requires WorkOk(g, w, i, j) && i < |w.ready| && j < |g[w.ready[i]]|
    ensures Forward(g, Consume(g, w, w.ready[i]).ready)
  {
    hide OpenFrom, Open, InDegree;
    ConsumeReady(g, w, i, j);
    var r := Consume(g, w, w.ready[i]);
    forall y, u, e | 0 <= y < |r.ready| && 0 <= u < |g| && 0 <= e < |g[u]| && g[u][e] == r.ready[y]
      ensures u in r.ready[..y]
    {
      if y < |w.ready| {
        assert r.ready[..y] == w.ready[..y];
        assert u in w.ready[..y];
      } else {
        assert r.ready[..y] == w.ready;
        OpenZero(g, r.cut, r.ready[y]);
        assert Listed(w, u);
      }
    }
  }

  lemma ConsumeOk(g: Graph, w: Work, i: nat, j: nat)
    requires WorkOk(g, w, i, j) && i < |w.ready| && j < |g[w.ready[i]]|
    ensures WorkOk(g, Consume(g, w, w.ready[i]), i, j + 1)
  {
    hide OpenFrom, Open, InDegree, Forward;
    ConsumeReady(g, w, i, j);
    ConsumeForward(g, w, i, j);
    var r := Consume(g, w, w.ready[i]);
    var v := g[w.ready[i]][j];
    assert w.cut[v] == 0;
    forall x | 0 <= x < |g|
      ensures Listed(r, x) <==> r.deg[x] == 0
    {
      assert Listed(r, x) <==> Listed(w, x) || (x == v && w.deg[v] == 1);
    }
    forall x | 0 <= x < |g| && !Listed(r, x)
      ensures r.cut[x] == 0
    {
      assert !Listed(w, x);
    }
  }

  lemma {:induction false} VisitOk(g: Graph, w: Work, i: nat, j: nat)
    requires WorkOk(g, w, i, 0) && i < |w.ready| && j <= |g[w.ready[i]]|
    ensures w.cut[w.ready[i]] == 0
    ensures WorkOk(g, VisitTo(g, w, w.ready[i], j), i, j) && w.ready <= VisitTo(g, w, w.ready[i], j).ready
  {
    hide OpenFrom, Open, InDegree, Forward;
    if j > 0 {
      VisitOk(g, w, i, j - 1);
      var p := VisitTo(g, w, w.ready[i], j - 1);
      ConsumeOk(g, p, i, j - 1);
    }
  }

  /** The worklist after `i` visits, or after as many as there are entries to visit. */
  function After(g: Graph, i: nat): (w: Work)
    requires WellFormed(g)
    ensures |w.deg| == |g| && IsCut(g, w.cut)
  {
    if i == 0 then Start(g)
    else
      var w := After(g, i - 1);
      if i <= |w.ready| && w.ready[i - 1] < |g| && w.cut[w.ready[i - 1]] == 0
      then VisitTo(g, w, w.ready[i - 1], |g[w.ready[i - 1]]|)
      else w
  }

  /** A fully visited entry is the same as an unvisited next entry. */
  lemma NextEntry(g: Graph, w: Work, i: nat)
    requires i > 0 && i <= |w.ready| && (forall x :: 0 <= x < |w.ready| ==> w.ready[x] < |g|)
    requires WorkOk(g, w, i - 1, |g[w.ready[i - 1]]|)
    ensures WorkOk(g, w, i, 0)
  {
    hide OpenFrom, Open, InDegree, Forward;
  }

  lemma VisitDone(g: Graph, w: Work, i: nat)
    requires i < |w.ready| && w.ready[i] < |g| && WorkOk(g, w, i, |g[w.ready[i]]|)
    ensures WorkOk(g, w, i + 1, 0)
  {
    hide OpenFrom, Open, InDegree, Forward;
  }

  // ---- The finished worklist ----

  lemma {:induction false} DistinctBounded(s: seq<nat>, n: nat)
    requires forall x :: 0 <= x < |s| ==> s[x] < n
    requires forall x, y :: 0 <= x < y < |s| ==> s[x] != s[y]
    ensures |s| <= n
  {
    if |s| > 0 {
      assert s[0] < n;
      if n - 1 in s {
        var k :| 0 <= k < |s| && s[k] == n - 1;
        var t := s[..k] + s[k + 1..];
        assert forall x :: 0 <= x < |t| ==> t[x] == if x < k then s[x] else s[x + 1];
        DistinctBounded(t, n - 1);
      } else {
        assert forall x :: 0 <= x < |s| ==> s[x] in s;
        DistinctBounded(s, n - 1);
      }
    }
  }

  /** A worklist every entry of which was visited. */
  ghost predicate Exhausted(g: Graph, w: Work) {
    WorkOk(g, w, |w.ready|, 0)
  }

  ghost predicate IsTopological(g: Graph, order: seq<nat>) {
    && |order| == |g|
    && (forall x :: 0 <= x < |order| ==> order[x] < |g|)
    && (forall x, y :: 0 <= x < y < |order| ==> order[x] != order[y])
    && Forward(g, order)
  }

  /** From an unlisted node one can walk backwards over unlisted nodes forever. */
  lemma {:induction false} BackWalk(g: Graph, w: Work, v: nat, len: nat) returns (p: seq<nat>)
    requires Exhausted(g, w) && v < |g| && !Listed(w, v)
    ensures IsPath(g, p) && |p| == len + 1 && p[|p| - 1] == v
    ensures forall x :: 0 <= x < |p| ==> !Listed(w, p[x])
    decreases len
  {
    hide OpenFrom, Open, InDegree, Forward;
    if len == 0 {
      p := [v];
    } else {
      var u, e := OpenWitness(g, w.cut, v);
      assert !Listed(w, u);
      var q := BackWalk(g, w, u, len - 1);
      p := q + [v];
    }
  }

  lemma Pigeonhole(p: seq<nat>, n: nat) returns (x: nat, y: nat)
    requires |p| > n && forall i :: 0 <= i < |p| ==> p[i] < n
    ensures x < y < |p| && p[x] == p[y]
  {
    if forall i, j :: 0 <= i < j < |p| ==> p[i] != p[j] {
      DistinctBounded(p, n);
    } else {
      x, y :| 0 <= x < y < |p| && p[x] == p[y];
    }
  }

  lemma {:induction false} ForwardPath(g: Graph, order: seq<nat>, p: seq<nat>, y: nat) returns (x: nat)
    requires IsTopological(g, order) && IsPath(g, p) && y < |order| && p[|p| - 1] == order[y]
    ensures x <= y && p[0] == order[x] && (|p| > 1 ==> x < y)
  {
    if |p| == 1 {
      x := y;
    } else {
      var q := p[..|p| - 1];
      var u := q[|q| - 1];
      var e :| 0 <= e < |g[u]| && g[u][e] == order[y];
      assert u in order[..y];
      var z :| 0 <= z < y && order[z] == u;
      x := ForwardPath(g, order, q, z);
    }
  }

  lemma InOrder(n: nat, order: seq<nat>, v: nat)
    requires |order| == n && v < n
    requires (forall x :: 0 <= x < |order| ==> order[x] < n)
    requires (forall x, y :: 0 <= x < y < |order| ==> order[x] != order[y])
    ensures v in order
  {
    if v !in order {
      DistinctBounded(order + [v], n);
    }
  }

  /** A topological order exists only in an acyclic graph. */
  lemma TopologicalAcyclic(g: Graph, order: seq<nat>)
    requires IsTopological(g, order)
    ensures Acyclic(g)
  {
    forall p | IsPath(g, p) && |p| > 1
      ensures p[0] != p[|p| - 1]
    {
      if p[0] == p[|p| - 1] {
        InOrder(|g|, order, p[0]);
        var y :| 0 <= y < |order| && order[y] == p[0];
        var x := ForwardPath(g, order, p, y);
      }
    }
  }

  /** An exhausted worklist holds every node exactly when the graph is acyclic. */
  lemma ExhaustedTheorem(g: Graph, w: Work)
    requires Exhausted(g, w)
    ensures |w.ready| <= |g|
    ensures |w.ready| == |g| <==> Acyclic(g)
    ensures |w.ready| == |g| ==> IsTopological(g, w.ready)
  {
    hide OpenFrom, Open, InDegree;
    DistinctBounded(w.ready, |g|);
    if |w.ready| == |g| {
      TopologicalAcyclic(g, w.ready);
    } else {
      var c := FindCycle(g, w);
    }
  }

  /** A worklist that misses a node exhibits a cycle. */
  lemma FindCycle(g: Graph, w: Work) returns (c: seq<nat>)
    requires Exhausted(g, w) && |w.ready| < |g|
    ensures IsPath(g, c) && |c| > 1 && c[0] == c[|c| - 1]
  {
    hide OpenFrom, Open, InDegree, Forward;
    var v := Missing(w.ready, |g|);
    var p := BackWalk(g, w, v, |g|);
    var x, y := Pigeonhole(p, |g|);
    c := p[x..y + 1];
  }

  lemma {:induction false} Missing(s: seq<nat>, n: nat) returns (v: nat)
    requires |s| < n
    ensures v < n && v !in s
  {
    if n - 1 !in s {
      v := n - 1;
    } else {
      var k :| 0 <= k < |s| && s[k] == n - 1;
      var t := s[..k] + s[k + 1..];
      if |t| < n - 1 {
        v := Missing(t, n - 1);
        assert forall x :: 0 <= x < |s| && x != k ==> s[x] == t[if x < k then x else x - 1];
      }
    }
  }

  /** The order in which validation visits the nodes. */
  function Order(g: Graph): seq<nat>
    requires WellFormed(g)
  {
    After(g, |g|).ready
  }

  /** Visiting stops only when every entry was visited, and |g| visits are enough. */
  lemma {:induction false} AfterExhausts(g: Graph, i: nat) returns (m: nat)
    requires WellFormed(g)
    ensures m <= i && m <= |After(g, i).ready| && WorkOk(g, After(g, i), m, 0)
    ensures m == i || (m < i && m == |After(g, i).ready|)
  {
    hide OpenFrom, Open, InDegree, Forward;
    if i == 0 {
      StartOk(g);
      m := 0;
    } else {
      m := AfterExhausts(g, i - 1);
      var w := After(g, i - 1);
      if m == i - 1 && m < |w.ready| {
        VisitOk(g, w, m, |g[w.ready[m]]|);
        NextEntry(g, After(g, i), i);
        m := i;
      }
    }
  }

  /** The order is exhausted; in an acyclic graph it is a topological order of all the nodes. */
  lemma OrderTheorem(g: Graph)
    requires WellFormed(g)
    ensures Exhausted(g, After(g, |g|))
    ensures |Order(g)| == |g| <==> Acyclic(g)
    ensures Acyclic(g) ==> IsTopological(g, Order(g))
  {
    hide OpenFrom, Open, InDegree, Forward;
    var m := AfterExhausts(g, |g|);
    DistinctBounded(After(g, |g|).ready, |g|);
    ExhaustedTheorem(g, After(g, |g|));
  }

  /** Once every entry was visited, further visits change nothing. */
  lemma {:induction false} AfterStable(g: Graph, i: nat, n: nat)
    requires WellFormed(g) && i == |After(g, i).ready| && i <= n
    ensures After(g, n) == After(g, i)
    decreases n
  {
    if i < n { AfterStable(g, i, n - 1); }
  }

  lemma ListBounded(g: Graph, w: Work, i: nat)
    requires WorkOk(g, w, i, 0) && i < |w.ready|
    ensures WellFormed(g) && |w.ready| <= |g| && w.ready[i] < |g| && |w.deg| == |g| && IsCut(g, w.cut) && w.cut[w.ready[i]] == 0
  {
    hide OpenFrom, Open, InDegree, Forward;
    DistinctBounded(w.ready, |g|);
  }

  /** Visiting a node only adds to the worklist. */
  lemma {:induction false} VisitGrows(g: Graph, w: Work, u: nat, j: nat)
    requires WellFormed(g) && |w.deg| == |g| && IsCut(g, w.cut) && u < |g| && w.cut[u] == 0 && j <= |g[u]|
    ensures w.ready <= VisitTo(g, w, u, j).ready
  {
    if j > 0 { VisitGrows(g, w, u, j - 1); }
  }

  /** The worklist only ever grows at its end. */
  lemma {:induction false} AfterPrefix(g: Graph, i: nat, n: nat)
    requires WellFormed(g) && i <= n
    ensures After(g, i).ready <= After(g, n).ready
    decreases n
  {
    hide VisitTo;
    if i < n {
      AfterPrefix(g, i, n - 1);
      var w := After(g, n - 1);
      if n <= |w.ready| && w.ready[n - 1] < |g| && w.cut[w.ready[n - 1]] == 0 {
        VisitGrows(g, w, w.ready[n - 1], |g[w.ready[n - 1]]|);
      }
    }
  }

  /** After any number of visits the worklist is a prefix of the final order. */
  lemma ReadyPrefix(g: Graph, i: nat)
    requires WellFormed(g) && i <= |g|
    ensures After(g, i).ready <= Order(g)
  {
    hide After;
    AfterPrefix(g, i, |g|);
  }
}
