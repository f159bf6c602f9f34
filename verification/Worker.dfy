/** A worker's run of one request: what a job's body does with the outputs of its predecessors, and the results
    that follow from the request alone. */
module Worker {
  import opened Jobs
  import opened Graphs
  import opened Wire
  import opened LittleEndian
  import Kahn

  /** What a registered kind returned: it may have written an output and a message either way. */
  datatype Answer = Answer(result: Result, output: Payload, message: seq<byte>)

  /** A request of `n` jobs and the kinds the worker has for them. A kind's answer depends on the job, whose own
      input is part of the request, and on its predecessors' outputs; `unknown` is the message for a job whose
      kind is not registered. */
  datatype Work = Work(n: nat, edges: seq<Wire.Edge>, known: nat -> bool, unknown: nat -> seq<byte>,
                       answer: (nat, seq<Payload>) -> Answer)

  ghost predicate WorkOk(w: Work) {
    && (forall i :: 0 <= i < |w.edges| ==> EdgeOk(w.n, w.edges[i]))
    && (forall v, xs :: w.answer(v, xs).result != Err(Cancelled))
  }

  /** outputs[i], errors[i], codes[i] and skipped[i]. */
  datatype Cell = Cell(output: Payload, message: seq<byte>, code: PipelineError, skipped: bool)

  const UNTOUCHED: Cell := Cell(NoPayload, [], JobFailed, false)

  // ---- The graph ----

  function Targets(edges: seq<Wire.Edge>, u: nat): seq<nat> {
    if edges == [] then []
    else
      var n := |edges| - 1;
      Targets(edges[..n], u) + (if edges[n].source == u then [edges[n].target] else [])
  }

  /** predecessorIds[v], in the order of the edges. */
  function Sources(edges: seq<Wire.Edge>, v: nat): seq<nat> {
    if edges == [] then []
    else
      var n := |edges| - 1;
      Sources(edges[..n], v) + (if edges[n].target == v then [edges[n].source] else [])
  }

  /** How many edges lead into `v`. */
  function InEdges(edges: seq<Wire.Edge>, v: nat): nat {
    if edges == [] then 0
    else
      var n := |edges| - 1;
      InEdges(edges[..n], v) + (if edges[n].target == v then 1 else 0)
  }

  /** `sources` has one entry for each edge into `v`, that edge's source, in the order of the edges. */
  predicate InEdgeOrder(edges: seq<Wire.Edge>, v: nat, sources: seq<nat>) {
    && |sources| == InEdges(edges, v)
    && forall i {:trigger edges[i]} :: 0 <= i < |edges| && edges[i].target == v ==>
         InEdges(edges[..i], v) < |sources| && sources[InEdges(edges[..i], v)] == edges[i].source
  }

  lemma OrderGrows(edges: seq<Wire.Edge>, v: nat, front: seq<nat>)
    requires edges != [] && InEdgeOrder(edges[..|edges| - 1], v, front)
    ensures InEdgeOrder(edges, v, front + (if edges[|edges| - 1].target == v then [edges[|edges| - 1].source] else []))
  {
    hide InEdges;
    var n := |edges| - 1;
    var all := front + (if edges[n].target == v then [edges[n].source] else []);
    InEdgesNext(edges, v);
    forall i {:trigger edges[i]} | 0 <= i < |edges| && edges[i].target == v
      ensures InEdges(edges[..i], v) < |all| && all[InEdges(edges[..i], v)] == edges[i].source
    {
      if i < n { assert edges[..n][i] == edges[i] && edges[..n][..i] == edges[..i]; }
    }
  }

  lemma InEdgesNext(edges: seq<Wire.Edge>, v: nat)
    requires edges != []
    ensures InEdges(edges, v) == InEdges(edges[..|edges| - 1], v) + (if edges[|edges| - 1].target == v then 1 else 0)
  {
  }

  lemma OrderShrinks(edges: seq<Wire.Edge>, v: nat, all: seq<nat>)
    requires edges != [] && InEdgeOrder(edges, v, all)
    ensures edges[|edges| - 1].target == v ==>
      && |all| > 0 && all[|all| - 1] == edges[|edges| - 1].source
      && InEdgeOrder(edges[..|edges| - 1], v, all[..|all| - 1])
    ensures edges[|edges| - 1].target != v ==> InEdgeOrder(edges[..|edges| - 1], v, all)
  {
    hide InEdges;
    var n := |edges| - 1;
    InEdgesNext(edges, v);
    assert edges[n].target == v ==> InEdges(edges[..n], v) == |all| - 1;
    var front := if edges[n].target == v then all[..|all| - 1] else all;
    forall i {:trigger edges[..n][i]} | 0 <= i < n && edges[..n][i].target == v
      ensures InEdges(edges[..n][..i], v) < |front| && front[InEdges(edges[..n][..i], v)] == edges[..n][i].source
    {
      assert edges[..n][i] == edges[i] && edges[..n][..i] == edges[..i];
      InEdgesGrow(edges[..n], i, v);
    }
  }

  lemma {:induction false} SourcesAre(edges: seq<Wire.Edge>, v: nat)
    ensures InEdgeOrder(edges, v, Sources(edges, v))
  {
    hide InEdgeOrder;
    if edges == [] {
      NoEdgeOrder(v);
    } else {
      SourcesAre(edges[..|edges| - 1], v);
      OrderGrows(edges, v, Sources(edges[..|edges| - 1], v));
    }
  }

  lemma NoEdgeOrder(v: nat)
    ensures InEdgeOrder([], v, [])
  {
  }

  lemma {:induction false} OrderUnique(edges: seq<Wire.Edge>, v: nat, a: seq<nat>, b: seq<nat>)
    requires InEdgeOrder(edges, v, a) && InEdgeOrder(edges, v, b)
    ensures a == b
  {
    if edges == [] {
      assert |a| == |b| == 0;
    } else {
      var n := |edges| - 1;
      OrderShrinks(edges, v, a);
      OrderShrinks(edges, v, b);
      hide InEdgeOrder;
      if edges[n].target == v {
        OrderUnique(edges[..n], v, a[..|a| - 1], b[..|b| - 1]);
        assert a == a[..|a| - 1] + [a[|a| - 1]] && b == b[..|b| - 1] + [b[|b| - 1]];
      } else {
        OrderUnique(edges[..n], v, a, b);
      }
    }
  }

  /** predecessorIds[v] lists the sources of the edges into `v` in the request's order, and nothing else does. */
  lemma SourcesInOrder(edges: seq<Wire.Edge>, v: nat, sources: seq<nat>)
    ensures InEdgeOrder(edges, v, sources) <==> sources == Sources(edges, v)
  {
    hide InEdgeOrder;
    SourcesAre(edges, v);
    if InEdgeOrder(edges, v, sources) { OrderUnique(edges, v, sources, Sources(edges, v)); }
  }

  lemma {:induction false} InEdgesGrow(edges: seq<Wire.Edge>, i: nat, v: nat)
    requires i < |edges| && edges[i].target == v
    ensures InEdges(edges[..i], v) < InEdges(edges, v)
  {
    var n := |edges| - 1;
    if i < n {
      assert edges[..n][..i] == edges[..i];
      InEdgesGrow(edges[..n], i, v);
    }
  }

  function GraphOf(w: Work): (g: Graph)
    ensures |g| == w.n
  {
    seq(w.n, u requires 0 <= u < w.n => Targets(w.edges, u))
  }

  lemma {:induction false} TargetsAre(edges: seq<Wire.Edge>, u: nat, v: nat)
    ensures v in Targets(edges, u) <==> Wire.Edge(u, v) in edges
    ensures u in Sources(edges, v) <==> Wire.Edge(u, v) in edges
  {
    if edges != [] {
      var n := |edges| - 1;
      TargetsAre(edges[..n], u, v);
      assert edges == edges[..n] + [edges[n]];
    }
  }

  lemma GraphWellFormed(w: Work)
    requires WorkOk(w)
    ensures WellFormed(GraphOf(w))
  {
    var g := GraphOf(w);
    forall u, k | 0 <= u < |g| && 0 <= k < |g[u]| ensures g[u][k] < |g| {
      TargetsAre(w.edges, u, g[u][k]);
    }
  }

  lemma SourceIsEdge(w: Work, u: nat, v: nat)
    requires WorkOk(w) && v < w.n
    ensures u in Sources(w.edges, v) <==> IsEdge(GraphOf(w), u, v)
    ensures u in Sources(w.edges, v) ==> u < w.n && u != v
  {
    TargetsAre(w.edges, u, v);
  }

  // ---- The body of a job ----

  /** Predecessor `u` neither failed nor skipped itself. */
  predicate ReallyDone(statuses: seq<Status>, cells: seq<Cell>, u: nat)
    requires |statuses| == |cells|
  {
    u < |cells| && !cells[u].skipped && statuses[u] == Done
  }

  function Outputs(cells: seq<Cell>, sources: seq<nat>): seq<Payload> {
    seq(|sources|, k requires 0 <= k < |sources| =>
      if sources[k] < |cells| then cells[sources[k]].output else NoPayload)
  }

  /** What the body of job `v` returns and leaves in its cell, which starts untouched. */
  function Body(w: Work, v: nat, statuses: seq<Status>, cells: seq<Cell>): (Result, Cell)
    requires |statuses| == |cells|
  {
    BodyFrom(w, v, Sources(w.edges, v), statuses, cells)
  }

  function BodyFrom(w: Work, v: nat, sources: seq<nat>, statuses: seq<Status>, cells: seq<Cell>): (Result, Cell)
    requires |statuses| == |cells|
  {
    if exists u :: u in sources && !ReallyDone(statuses, cells, u) then (Ok, UNTOUCHED.(skipped := true))
    else if !w.known(v) then (Err(JobFailed), UNTOUCHED.(message := w.unknown(v)))
    else
      var a := w.answer(v, Outputs(cells, sources));
      (a.result, Cell(a.output, a.message, if a.result.Err? then a.result.error else JobFailed, false))
  }

  lemma BodyInOrder(w: Work, v: nat, statuses: seq<Status>, cells: seq<Cell>)
    requires |statuses| == |cells|
    ensures forall sources :: InEdgeOrder(w.edges, v, sources) ==>
      Body(w, v, statuses, cells) == BodyFrom(w, v, sources, statuses, cells)
  {
    hide Sources, InEdgeOrder, BodyFrom;
    forall sources | InEdgeOrder(w.edges, v, sources)
      ensures Body(w, v, statuses, cells) == BodyFrom(w, v, sources, statuses, cells)
    {
      SourcesInOrder(w.edges, v, sources);
    }
  }

  lemma BodyFrame(w: Work, v: nat, s: seq<Status>, c: seq<Cell>, t: seq<Status>, d: seq<Cell>)
    requires |s| == |c| == |t| == |d|
    requires forall u :: u in Sources(w.edges, v) && u < |c| ==> s[u] == t[u] && c[u] == d[u]
    ensures Body(w, v, s, c) == Body(w, v, t, d)
  {
    var sources := Sources(w.edges, v);
    forall u | u in sources ensures ReallyDone(s, c, u) == ReallyDone(t, d, u) {}
    assert Outputs(c, sources) == Outputs(d, sources);
  }

  // ---- The results a request has ----

  datatype Verdict = Verdict(result: Result, cell: Cell)

  function Statuses(vs: seq<Verdict>): (s: seq<Status>)
    ensures |s| == |vs|
  {
    seq(|vs|, i requires 0 <= i < |vs| => StatusOf(vs[i].result))
  }

  function Cells(vs: seq<Verdict>): (c: seq<Cell>)
    ensures |c| == |vs|
  {
    seq(|vs|, i requires 0 <= i < |vs| => vs[i].cell)
  }

  function Judge(w: Work, v: nat, vs: seq<Verdict>): Verdict {
    var (r, c) := Body(w, v, Statuses(vs), Cells(vs));
    Verdict(r, c)
  }

  /** Each job's verdict follows from its predecessors' verdicts. */
  ghost predicate Consistent(w: Work, vs: seq<Verdict>) {
    |vs| == w.n && forall v {:trigger vs[v]} :: 0 <= v < w.n ==> vs[v] == Judge(w, v, vs)
  }

  /** What the reply reports of a job before outputs are looked at. */
  function Reported(v: Verdict): Status {
    if v.cell.skipped then Skipped else StatusOf(v.result)
  }

  /** The definition spelled out, `sources` being the sources of the edges into `v` in the request's order: a job is
      reported Skipped exactly when one of them is not Done, and then leaves its cell as it was; otherwise it reports
      what its kind answers to their outputs in that order, or that its kind is unknown. */
  lemma ConsistentMeans(w: Work, vs: seq<Verdict>, v: nat, sources: seq<nat>)
    requires WorkOk(w) && Consistent(w, vs) && v < w.n && InEdgeOrder(w.edges, v, sources)
    ensures forall k :: 0 <= k < |sources| ==> sources[k] < w.n
    ensures var x := vs[v];
      && (Reported(x) == Skipped <==> exists k :: 0 <= k < |sources| && Reported(vs[sources[k]]) != Done)
      && (Reported(x) == Skipped ==>
            x.result == Ok && x.cell.output == NoPayload && x.cell.message == [] && x.cell.code == JobFailed)
      && (Reported(x) != Skipped && !w.known(v) ==>
            && x.result == Err(JobFailed) && x.cell.code == JobFailed
            && x.cell.output == NoPayload && x.cell.message == w.unknown(v))
      && (Reported(x) != Skipped && w.known(v) ==>
            var a := w.answer(v, seq(|sources|, k requires 0 <= k < |sources| => vs[sources[k]].cell.output));
            && x.result == a.result && x.cell.output == a.output && x.cell.message == a.message
            && (a.result.Err? ==> x.cell.code == a.result.error))
  {
    hide Sources, InEdgeOrder;
    SourcesInOrder(w.edges, v, sources);
    forall k | 0 <= k < |sources|
      ensures sources[k] < w.n && (ReallyDone(Statuses(vs), Cells(vs), sources[k]) <==> Reported(vs[sources[k]]) == Done)
    {
      SourceIsEdge(w, sources[k], v);
      DoneMeans(vs[sources[k]]);
    }
    assert vs[v] == Judge(w, v, vs);
    assert Outputs(Cells(vs), sources)
        == seq(|sources|, k requires 0 <= k < |sources| => vs[sources[k]].cell.output);
    if exists u :: u in sources && !ReallyDone(Statuses(vs), Cells(vs), u) {
      var u :| u in sources && !ReallyDone(Statuses(vs), Cells(vs), u);
      var k :| 0 <= k < |sources| && sources[k] == u;
      assert Reported(vs[sources[k]]) != Done;
    }
  }

  lemma DoneMeans(v: Verdict)
    ensures Reported(v) == Done <==> !v.cell.skipped && StatusOf(v.result) == Done
  {
  }

  /** The definition determines the results: two consistent assignments agree on every job. */
  lemma {:induction false} AgreeOn(w: Work, order: seq<nat>, a: seq<Verdict>, b: seq<Verdict>, i: nat)
    requires WorkOk(w) && Kahn.IsTopological(GraphOf(w), order) && Consistent(w, a) && Consistent(w, b)
    requires i <= |order|
    ensures forall k :: 0 <= k < i ==> order[k] < w.n && a[order[k]] == b[order[k]]
  {
    hide Sources, Judge, GraphOf;
    if i > 0 {
      AgreeOn(w, order, a, b, i - 1);
      OrderAt(w, order, i - 1);
      var v := order[i - 1];
      JudgeFrame(w, v, a, b, order, i - 1);
    }
  }

  lemma OrderAt(w: Work, order: seq<nat>, i: nat)
    requires Kahn.IsTopological(GraphOf(w), order) && i < |order|
    ensures order[i] < w.n
  {
  }

  /** The predecessors of the i-th node in a topological order come before it. */
  lemma SourcesBefore(w: Work, order: seq<nat>, i: nat, u: nat)
    requires WorkOk(w) && Kahn.IsTopological(GraphOf(w), order) && i < |order| && order[i] < w.n
    requires u in Sources(w.edges, order[i])
    ensures u < w.n && u in order[..i]
  {
    SourceIsEdge(w, u, order[i]);
    var g := GraphOf(w);
    var k :| 0 <= k < |g[u]| && g[u][k] == order[i];
  }

  lemma JudgeFrame(w: Work, v: nat, a: seq<Verdict>, b: seq<Verdict>, order: seq<nat>, i: nat)
    requires WorkOk(w) && Kahn.IsTopological(GraphOf(w), order) && i < |order| && order[i] == v < w.n
    requires |a| == |b| == w.n
    requires forall k :: 0 <= k < i ==> order[k] < w.n && a[order[k]] == b[order[k]]
    ensures Judge(w, v, a) == Judge(w, v, b)
  {
    hide Sources, Body, GraphOf;
    forall u | u in Sources(w.edges, v) && u < w.n
      ensures Statuses(a)[u] == Statuses(b)[u] && Cells(a)[u] == Cells(b)[u]
    {
      SourcesBefore(w, order, i, u);
      var k :| 0 <= k < i && order[..i][k] == u;
      assert order[k] == u;
    }
    BodyFrame(w, v, Statuses(a), Cells(a), Statuses(b), Cells(b));
  }

  lemma ConsistentUnique(w: Work, a: seq<Verdict>, b: seq<Verdict>)
    requires WorkOk(w) && Acyclic(GraphOf(w)) && Consistent(w, a) && Consistent(w, b)
    ensures a == b
  {
    hide Judge, GraphOf;
    GraphWellFormed(w);
    var g := GraphOf(w);
    var order := Kahn.Order(g);
    Kahn.OrderTheorem(g);
    AgreeOn(w, order, a, b, |order|);
    forall v | 0 <= v < w.n ensures a[v] == b[v] {
      Kahn.InOrder(|g|, order, v);
      var k :| 0 <= k < |order| && order[k] == v;
    }
  }

  // ---- Running the jobs one after another ----

  /** The verdicts after the bodies of the first `i` jobs of `order` ran, each seeing those before it. */
  function RunInOrder(w: Work, order: seq<nat>, i: nat): (vs: seq<Verdict>)
    requires i <= |order| && forall k :: 0 <= k < |order| ==> order[k] < w.n
    ensures |vs| == w.n
  {
    if i == 0 then seq(w.n, _ => Verdict(Ok, UNTOUCHED))
    else
      var before := RunInOrder(w, order, i - 1);
      before[order[i - 1] := Judge(w, order[i - 1], before)]
  }

  lemma {:induction false} RunKeeps(w: Work, order: seq<nat>, i: nat)
    requires WorkOk(w) && Kahn.IsTopological(GraphOf(w), order) && i <= |order|
    requires forall k :: 0 <= k < |order| ==> order[k] < w.n
    ensures forall k :: 0 <= k < i ==> RunInOrder(w, order, i)[order[k]] == Judge(w, order[k], RunInOrder(w, order, i))
  {
    hide Judge, GraphOf;
    if i > 0 {
      RunKeeps(w, order, i - 1);
      var before, now := RunInOrder(w, order, i - 1), RunInOrder(w, order, i);
      forall k | 0 <= k < i ensures now[order[k]] == Judge(w, order[k], now) {
        forall j | 0 <= j < k ensures order[j] < w.n && before[order[j]] == now[order[j]] {
          OrderDistinct(w, order, j, i - 1);
        }
        JudgeFrame(w, order[k], before, now, order, k);
        if k < i - 1 { OrderDistinct(w, order, k, i - 1); }
      }
    }
  }

  lemma OrderDistinct(w: Work, order: seq<nat>, j: nat, k: nat)
    requires Kahn.IsTopological(GraphOf(w), order) && j < k < |order|
    ensures order[j] != order[k]
  {
  }

  /** Running the jobs one at a time, in any topological order, gives the request's results; in particular in the
      order in which an inline run takes them. */
  lemma AnyOrderGivesTheResults(w: Work, order: seq<nat>)
    requires WorkOk(w) && Kahn.IsTopological(GraphOf(w), order)
    ensures forall k :: 0 <= k < |order| ==> order[k] < w.n
    ensures Consistent(w, RunInOrder(w, order, |order|))
  {
    hide Judge, GraphOf;
    forall k | 0 <= k < |order| ensures order[k] < w.n { OrderAt(w, order, k); }
    RunKeeps(w, order, |order|);
    var vs := RunInOrder(w, order, |order|);
    forall v {:trigger vs[v]} | 0 <= v < w.n ensures vs[v] == Judge(w, v, vs) {
      Kahn.InOrder(w.n, order, v);
      var k :| 0 <= k < |order| && order[k] == v;
    }
  }
}
