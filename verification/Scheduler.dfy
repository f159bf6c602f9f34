/** The threaded run of a pipeline as a transition system, one step per atomic action.

    An agent acts on behalf of one node from the moment the executor accepts it. Agent `|g|` is the
    thread that called run(): its "out-edges" are the roots, which it submits in order. The loop that
    drains the skip worklist is an agent of its own: in the code it runs on the thread whose claim
    started it, under a mutex, so letting its caller proceed and other claims interleave with it only
    adds behaviours. completedCount_ is read by no step, so counting is joined to the status change. */
module Scheduler {
  import opened Jobs
  import opened Graphs

  /** The immutable part of a run. */
  datatype Plan = Plan(g: Graph, optional: seq<bool>, onDemand: seq<bool>, deferred: seq<bool>)

  ghost predicate ValidPlan(p: Plan) {
    WellFormed(p.g) && |p.optional| == |p.onDemand| == |p.deferred| == |p.g|
  }

  predicate IsRoot(p: Plan, v: nat) {
    v < |p.g| && v < |p.onDemand| && InDegree(p.g, v) == 0 && !p.onDemand[v]
  }

  /** The roots from index `i` on, in index order. */
  function RootsFrom(p: Plan, i: nat): (r: seq<nat>)
    ensures forall v: nat :: v in r <==> i <= v && IsRoot(p, v)
    ensures forall x, y :: 0 <= x < y < |r| ==> r[x] < r[y]
    decreases |p.g| - i
  {
    if i >= |p.g| then []
    else
      var rest := RootsFrom(p, i + 1);
      assert forall y :: 0 <= y < |rest| ==> rest[y] in rest;
      if IsRoot(p, i) then [i] + rest else rest
  }

  function Roots(p: Plan): (r: seq<nat>)
    ensures forall j :: 0 <= j < |r| ==> r[j] < |p.g| && IsRoot(p, r[j])
    ensures forall x, y :: 0 <= x < y < |r| ==> r[x] < r[y]
    ensures forall v: nat :: v in r <==> IsRoot(p, v)
  {
    var r := RootsFrom(p, 0);
    assert forall j :: 0 <= j < |r| ==> r[j] in r;
    r
  }

  /** What agent `a` hands work to, in order. */
  function Out(p: Plan, a: nat): seq<nat> {
    if a < |p.g| then p.g[a] else Roots(p)
  }

  /** Where an agent stands: the action named is the next one it takes. */
  datatype Pc =
    | Idle                     // not accepted by the executor
    | Queued                   // dispatchJob: read the fatal flag
    | Claiming                 // dispatchJob: exchange Ready for Running
    | InBody                   // the job body runs
    | Waiting                  // a deferred job, published as Awaiting
    | Storing                  // finishJob: store the final status and count the completion
    | Recording                // finishJob, fatal: record the failure
    | Failing(k: nat)          // finishJob, fatal: skip successor k
    | Edge(k: nat)             // read the fatal flag for edge k
    | Decrement(k: nat)        // finishJob: decrement the target of edge k
    | Waking(k: nat)           // finishJob: exchange the target's Pending for Ready
    | Dispatching(k: nat)      // inside executor.dispatch() for the target of edge k
    | Rejecting(v: nat)        // submissionFailed: exchange Ready for Failed
    | RejectRecording(v: nat)  // submissionFailed: record the failure
    | Sweeping(q: nat)         // submissionFailed: skip node q
    | Ended

  /** The loop over the skip worklist. */
  datatype Drain = NotDraining | Pop | Expand(u: nat, k: nat)

  /** Fields after `unmet` are history: no step reads them. */
  datatype Node = Node(
    status: Status,
    unmet: int,
    lastBy: Option<nat>,      // the agent that made this node ready to submit
    entered: nat,             // how often the body was entered
    outcome: Option<Result>,  // what the body returned
    counted: nat)             // how often completedCount_ was raised for this node

  datatype State = State(
    nodes: seq<Node>,
    pcs: seq<Pc>,
    cut: seq<nat>,            // history: out-edges of each node whose target was decremented
    completed: nat,
    fatal: bool,
    failure: Option<(nat, PipelineError)>,
    skipped: seq<nat>,
    skipRead: nat,
    drain: Drain,
    swept: bool)              // history: some rejection finished skipping every node

  ghost function InitNode(p: Plan, v: nat): Node {
    if IsRoot(p, v) then Node(Ready, 0, Some(|p.g|), 0, None, 0)
    else Node(Pending, InDegree(p.g, v), None, 0, None, 0)
  }

  ghost function Init(p: Plan): State {
    var n := |p.g|;
    State(seq(n, v requires 0 <= v < n => InitNode(p, v)), seq(n, v => Idle) + [Edge(0)], NoCut(p.g),
          0, false, None, [], 0, NotDraining, false)
  }

  /** The indices that a control point may carry. */
  ghost predicate PcShape(p: Plan, a: nat, pc: Pc) {
    match pc
    case Edge(k) => k <= |Out(p, a)|
    case Dispatching(k) => k < |Out(p, a)|
    case Rejecting(v) => v < |p.g|
    case RejectRecording(v) => v < |p.g|
    case Sweeping(q) => q <= |p.g|
    case Ended => true
    case Failing(k) => a < |p.g| && k <= |p.g[a]|
    case Decrement(k) => a < |p.g| && k < |p.g[a]|
    case Waking(k) => a < |p.g| && k < |p.g[a]|
    case _ => a < |p.g|
  }

  ghost predicate Shape(p: Plan, s: State) {
    && ValidPlan(p)
    && |s.nodes| == |p.g| && |s.pcs| == |p.g| + 1
    && IsCut(p.g, s.cut)
    && s.skipRead <= |s.skipped|
    && (forall i :: 0 <= i < |s.skipped| ==> s.skipped[i] < |p.g|)
    && (forall a {:trigger s.pcs[a]} :: 0 <= a <= |p.g| ==> PcShape(p, a, s.pcs[a]))
    && (s.drain.Expand? ==> s.drain.u < |p.g| && s.drain.k <= |p.g[s.drain.u]|)
  }

  /** What the environment decides at a step: a body's result, whether a deferred job is published
      as Awaiting first, and whether the executor accepts a submission. */
  datatype Choice = Choice(r: Result, awaits: bool, accepts: bool)

  function Move(s: State, a: nat, pc: Pc): State
    requires a < |s.pcs|
  {
    s.(pcs := s.pcs[a := pc])
  }

  function SetStatus(s: State, v: nat, st: Status): State
    requires v < |s.nodes|
  {
    s.(nodes := s.nodes[v := s.nodes[v].(status := st)])
  }

  function CountNode(s: State, v: nat): State
    requires v < |s.nodes|
  {
    s.(completed := s.completed + 1, nodes := s.nodes[v := s.nodes[v].(counted := s.nodes[v].counted + 1)])
  }

  function RecordFailure(s: State, v: nat, e: PipelineError): State {
    if s.fatal then s else s.(fatal := true, failure := Some((v, e)))
  }

  /** A settled node has started, finished or been skipped. */
  predicate Settled(s: State, v: nat)
    requires v < |s.nodes|
  {
    s.nodes[v].status != Pending && s.nodes[v].status != Ready
  }

  /** enqueueSkip(): claim a node that has not started, or leave it alone. */
  function ClaimSkip(s: State, v: nat): State
    requires v < |s.nodes|
  {
    if Settled(s, v) then s else SetStatus(s, v, Skipped).(skipped := s.skipped + [v])
  }

  /** skipNode(): claim, and start draining unless that is under way. */
  function SkipNode(s: State, v: nat): State
    requires v < |s.nodes|
  {
    var t := ClaimSkip(s, v);
    if t.drain.NotDraining? then t.(drain := Pop) else t
  }

  // ---- The worklist loop ----

  function DrainPop(s: State): State {
    if s.skipRead < |s.skipped|
    then s.(drain := Expand(s.skipped[s.skipRead], 0), skipRead := s.skipRead + 1)
    else s.(drain := NotDraining)
  }

  function DrainExpand(p: Plan, s: State): State
    requires Shape(p, s) && s.drain.Expand?
  {
    var Expand(u, k) := s.drain;
    if k < |p.g[u]| then ClaimSkip(s, p.g[u][k]).(drain := Expand(u, k + 1))
    else CountNode(s, u).(drain := Pop)
  }

  // ---- dispatchJob() and finishJob() ----

  function DoQueued(p: Plan, s: State, a: nat): State
    requires Shape(p, s) && a < |p.g|
  {
    if s.fatal then Move(SkipNode(s, a), a, Ended) else Move(s, a, Claiming)
  }

  function DoClaiming(p: Plan, s: State, a: nat): State
    requires Shape(p, s) && a < |p.g|
  {
    var nd := s.nodes[a];
    if nd.status == Ready
    then Move(s, a, InBody).(nodes := s.nodes[a := nd.(status := Running, entered := nd.entered + 1)])
    else Move(s, a, Ended)
  }

  function DoBody(p: Plan, s: State, a: nat, c: Choice): State
    requires Shape(p, s) && a < |p.g|
  {
    if s.pcs[a] == InBody && p.deferred[a] && c.awaits
    then Move(SetStatus(s, a, Awaiting), a, Waiting)
    else Move(s, a, Storing).(nodes := s.nodes[a := s.nodes[a].(outcome := Some(c.r))])
  }

  function DoStoring(p: Plan, s: State, a: nat): State
    requires Shape(p, s) && a < |p.g| && s.nodes[a].outcome.Some?
  {
    var r := s.nodes[a].outcome.value;
    Move(CountNode(SetStatus(s, a, StatusOf(r)), a), a,
         if FatalResult(p.optional[a], r) then Recording else Edge(0))
  }

  function DoRecording(p: Plan, s: State, a: nat): State
    requires Shape(p, s) && a < |p.g| && s.nodes[a].outcome.Some? && s.nodes[a].outcome.value.Err?
  {
    Move(RecordFailure(s, a, s.nodes[a].outcome.value.error), a, Failing(0))
  }

  function DoFailing(p: Plan, s: State, a: nat): State
    requires Shape(p, s) && a < |p.g| && s.pcs[a].Failing?
  {
    var k := s.pcs[a].k;
    if k < |p.g[a]| then Move(SkipNode(s, p.g[a][k]), a, Failing(k + 1)) else Move(s, a, Ended)
  }

  /** The fatal flag only ever rises, so reading it set and skipping are one step. */
  function DoEdge(p: Plan, s: State, a: nat): State
    requires Shape(p, s) && a <= |p.g| && s.pcs[a].Edge?
  {
    var k := s.pcs[a].k;
    if k == |Out(p, a)| then Move(s, a, Ended)
    else if s.fatal then Move(SkipNode(s, Out(p, a)[k]), a, Edge(k + 1))
    else Move(s, a, if a < |p.g| then Decrement(k) else Dispatching(k))
  }

  function DoDecrement(p: Plan, s: State, a: nat): State
    requires Shape(p, s) && a < |p.g| && s.pcs[a].Decrement? && s.cut[a] < |p.g[a]|
  {
    var k := s.pcs[a].k;
    var v := p.g[a][k];
    var remaining := s.nodes[v].unmet - 1;
    var cause := if remaining == 0 then Some(a) else s.nodes[v].lastBy;
    Move(s, a, if remaining == 0 then Waking(k) else Edge(k + 1)).(
      nodes := s.nodes[v := s.nodes[v].(unmet := remaining, lastBy := cause)],
      cut := s.cut[a := s.cut[a] + 1])
  }

  function DoWaking(p: Plan, s: State, a: nat): State
    requires Shape(p, s) && a < |p.g| && s.pcs[a].Waking?
  {
    var k := s.pcs[a].k;
    var v := p.g[a][k];
    if s.nodes[v].status == Pending then Move(SetStatus(s, v, Ready), a, Dispatching(k))
    else Move(s, a, Edge(k + 1))
  }

  /** An accepted submission gives the target an agent, whatever that agent was before. */
  function DoDispatching(p: Plan, s: State, a: nat, c: Choice): State
    requires Shape(p, s) && a <= |p.g| && s.pcs[a].Dispatching?
  {
    var k := s.pcs[a].k;
    var v := Out(p, a)[k];
    if c.accepts then Move(Move(s, a, Edge(k + 1)), v, Queued) else Move(s, a, Rejecting(v))
  }

  // ---- submissionFailed() ----

  function DoRejecting(p: Plan, s: State, a: nat): State
    requires Shape(p, s) && a <= |p.g| && s.pcs[a].Rejecting?
  {
    var v := s.pcs[a].v;
    var t := Move(s, a, RejectRecording(v));
    if s.nodes[v].status == Ready then CountNode(SetStatus(t, v, Failed), v) else t
  }

  function DoRejectRecording(p: Plan, s: State, a: nat): State
    requires Shape(p, s) && a <= |p.g| && s.pcs[a].RejectRecording?
  {
    Move(RecordFailure(s, s.pcs[a].v, JobFailed), a, Sweeping(0))
  }

  function DoSweeping(p: Plan, s: State, a: nat): State
    requires Shape(p, s) && a <= |p.g| && s.pcs[a].Sweeping?
  {
    var q := s.pcs[a].q;
    if q < |p.g| then Move(SkipNode(s, q), a, Sweeping(q + 1)) else Move(s, a, Ended).(swept := true)
  }
}
