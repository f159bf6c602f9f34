/** A worker's request on a threaded executor: the scheduler's steps, each body doing what Worker.Body says with
    the shared cells. Every schedule ends with the request's own results. */
module WorkerRuns {
  import opened Jobs
  import opened Graphs
  import opened Scheduler
  import opened SchedulerInvariant
  import opened SchedulerSteps
  import opened SchedulerRuns
  import opened SchedulerTheorems
  import opened Worker

  /** Every job of the request's pipeline is optional, none deferred or on-demand. */
  function PlanOf(w: Work): Plan {
    Plan(GraphOf(w), seq(w.n, _ => true), seq(w.n, _ => false), seq(w.n, _ => false))
  }

  datatype World = World(s: State, cells: seq<Cell>)

  ghost function Start(w: Work): World { World(Init(PlanOf(w)), seq(w.n, _ => UNTOUCHED)) }

  function StatusesOf(nodes: seq<Node>): (r: seq<Status>)
    ensures |r| == |nodes|
  {
    seq(|nodes|, i requires 0 <= i < |nodes| => nodes[i].status)
  }

  /** One step of the request's run: the executor accepts every submission, and a body returns what it computes
      from the statuses and cells it finds. */
  ghost predicate WorldSteps(w: Work, x: World, step: Step, y: World)
    requires Shape(PlanOf(w), x.s) && Enabled(PlanOf(w), x.s, step) && |x.cells| == w.n
  {
    && Steps(PlanOf(w), x.s, step, y.s)
    && match step
       case DrainStep => y.cells == x.cells
       case AgentStep(a, c) =>
         && c.accepts
         && if x.s.pcs[a] == InBody then
              var (r, cell) := Body(w, a, StatusesOf(x.s.nodes), x.cells);
              c.r == r && y.cells == x.cells[a := cell]
            else y.cells == x.cells
  }

  ghost predicate IsWorldRun(w: Work, worlds: seq<World>, steps: seq<Step>) {
    && |worlds| == |steps| + 1 && worlds[0] == Start(w)
    && forall i :: 0 <= i < |steps| ==>
         && Shape(PlanOf(w), worlds[i].s) && Enabled(PlanOf(w), worlds[i].s, steps[i]) && |worlds[i].cells| == w.n
         && WorldSteps(w, worlds[i], steps[i], worlds[i + 1])
  }

  lemma RunNonEmpty(w: Work, worlds: seq<World>, steps: seq<Step>)
    requires IsWorldRun(w, worlds, steps)
    ensures |worlds| > 0
  {
  }

  lemma PlanValid(w: Work)
    requires WorkOk(w)
    ensures ValidPlan(PlanOf(w))
  {
    GraphWellFormed(w);
  }

  /** A run of the request is a run of the scheduler. */
  lemma Projects(w: Work, worlds: seq<World>, steps: seq<Step>, i: nat)
    requires WorkOk(w) && IsWorldRun(w, worlds, steps) && i < |worlds|
    ensures Reachable(PlanOf(w), worlds[i].s)
  {
    hide Shape, Enabled, Steps, Init, PlanOf;
    PlanValid(w);
    var states := seq(i + 1, k requires 0 <= k < i + 1 => worlds[k].s);
    assert IsRun(PlanOf(w), states, steps[..i]);
    assert states[|states| - 1] == worlds[i].s;
  }

  // ---- Nothing fatal happens ----

  predicate CalmPc(pc: Pc) {
    !pc.Recording? && !pc.Failing? && !pc.Rejecting? && !pc.RejectRecording? && !pc.Sweeping? && !pc.Waiting?
  }

  ghost predicate Calm(s: State) {
    && !s.fatal && s.drain.NotDraining?
    && (forall a {:trigger s.pcs[a]} :: 0 <= a < |s.pcs| ==> CalmPc(s.pcs[a]))
    && (forall v {:trigger s.nodes[v]} :: 0 <= v < |s.nodes| ==> s.nodes[v].outcome != Some(Err(Cancelled)))
  }

  lemma BodyNotCancelled(w: Work, v: nat, statuses: seq<Status>, cells: seq<Cell>)
    requires WorkOk(w) && |statuses| == |cells|
    ensures Body(w, v, statuses, cells).0 != Err(Cancelled)
  {
    hide Sources, Outputs, ReallyDone;
  }

  predicate InJob(pc: Pc) { pc.Queued? || pc.Claiming? || pc.InBody? || pc.Storing? }

  lemma JobCalm(w: Work, x: World, a: nat, c: Choice, y: World)
    requires WorkOk(w) && Shape(PlanOf(w), x.s) && Enabled(PlanOf(w), x.s, AgentStep(a, c)) && |x.cells| == w.n
    requires WorldSteps(w, x, AgentStep(a, c), y) && Calm(x.s) && InJob(x.s.pcs[a])
    ensures Calm(y.s) && |y.cells| == w.n
  {
    hide Open, OpenFrom, InDegree, NoCut, Roots, RootsFrom, IsRoot, Body, GraphOf, IsCut;
    if x.s.pcs[a] == InBody { BodyNotCancelled(w, a, StatusesOf(x.s.nodes), x.cells); }
  }

  lemma EdgeCalm(w: Work, x: World, a: nat, c: Choice, y: World)
    requires WorkOk(w) && Shape(PlanOf(w), x.s) && Enabled(PlanOf(w), x.s, AgentStep(a, c)) && |x.cells| == w.n
    requires WorldSteps(w, x, AgentStep(a, c), y) && Calm(x.s) && !InJob(x.s.pcs[a])
    ensures Calm(y.s) && |y.cells| == w.n
  {
    hide Open, OpenFrom, InDegree, NoCut, Roots, RootsFrom, IsRoot, Body, GraphOf, IsCut;
  }

  lemma StepCalm(w: Work, x: World, step: Step, y: World)
    requires WorkOk(w) && Shape(PlanOf(w), x.s) && Enabled(PlanOf(w), x.s, step) && |x.cells| == w.n
    requires WorldSteps(w, x, step, y) && Calm(x.s)
    ensures Calm(y.s) && |y.cells| == w.n
  {
    hide Steps, Body, PlanOf, Shape;
    match step
    case DrainStep =>
    case AgentStep(a, c) =>
      AgentInRange(w, x.s, a);
      if InJob(x.s.pcs[a]) { JobCalm(w, x, a, c, y); } else { EdgeCalm(w, x, a, c, y); }
  }

  lemma AgentInRange(w: Work, s: State, a: nat)
    requires Shape(PlanOf(w), s) && a <= |PlanOf(w).g|
    ensures a < |s.pcs|
  {
  }

  // ---- Cells follow from their predecessors ----

  function OutcomeStatus(nd: Node): Status {
    if nd.outcome.Some? then StatusOf(nd.outcome.value) else Pending
  }

  function OutcomeStatuses(nodes: seq<Node>): (r: seq<Status>)
    ensures |r| == |nodes|
  {
    seq(|nodes|, i requires 0 <= i < |nodes| => OutcomeStatus(nodes[i]))
  }

  /** Job `v`, once its body returned, has the result and the cell that its predecessors' outcomes imply. */
  ghost predicate CellOk(w: Work, nodes: seq<Node>, cells: seq<Cell>, v: nat)
    requires |nodes| == |cells| && v < |nodes|
  {
    nodes[v].outcome.Some? ==>
      && (forall u :: u in Sources(w.edges, v) && u < |nodes| ==> nodes[u].outcome.Some?)
      && (nodes[v].outcome.value, cells[v]) == Body(w, v, OutcomeStatuses(nodes), cells)
  }

  ghost predicate CellsOk(w: Work, x: World) {
    && |x.s.nodes| == |x.cells| == w.n
    && forall v: nat {:trigger CellOk(w, x.s.nodes, x.cells, v)} :: v < w.n ==> CellOk(w, x.s.nodes, x.cells, v)
  }

  /** The job whose body returns at `step`. */
  function BodyOf(s: State, step: Step): Option<nat> {
    if step.AgentStep? && step.a < |s.pcs| && s.pcs[step.a] == InBody then Some(step.a) else None
  }

  lemma OutcomesMove(p: Plan, s: State, step: Step, t: State)
    requires Shape(p, s) && Enabled(p, s, step) && Steps(p, s, step, t) && Calm(s)
    requires forall a :: 0 <= a < |p.g| ==> !p.deferred[a]
    ensures |t.nodes| == |s.nodes|
    ensures BodyOf(s, step) == None ==>
      forall v {:trigger t.nodes[v]} :: 0 <= v < |s.nodes| ==> t.nodes[v].outcome == s.nodes[v].outcome
    ensures BodyOf(s, step).Some? ==>
      step.a < |s.nodes| && t.nodes == s.nodes[step.a := s.nodes[step.a].(outcome := Some(step.c.r))]
  {
    hide Open, OpenFrom, InDegree, NoCut, Roots, RootsFrom, IsRoot;
  }

  /** When a body runs, its predecessors have finished, and their statuses are their outcomes'. */
  lemma SourcesFinished(w: Work, s: State, a: nat, u: nat)
    requires WorkOk(w) && Inv(PlanOf(w), s) && a < w.n && s.pcs[a] == InBody && u in Sources(w.edges, a)
    ensures u < w.n && u != a && s.nodes[u].outcome.Some? && s.nodes[u].status == OutcomeStatus(s.nodes[u])
  {
    hide Open, OpenFrom, InDegree, NoCut, Roots, RootsFrom, IsRoot, GraphOf;
    hide EdgesOk, HoldsOk, OwnersOk, SettledOk, WorklistOk, FatalOk;
    var p := PlanOf(w);
    SourceIsEdge(w, u, a);
    LocalRecord(p, s, a);
    ConsumedPredecessor(p, s, u, a);
    LocalRecord(p, s, u);
  }

  lemma BodyCells(w: Work, x: World, step: Step, y: World)
    requires WorkOk(w) && Inv(PlanOf(w), x.s) && Enabled(PlanOf(w), x.s, step) && |x.cells| == w.n
    requires WorldSteps(w, x, step, y) && CellsOk(w, x) && Calm(x.s) && BodyOf(x.s, step).Some?
    ensures CellsOk(w, y)
  {
    hide Inv, Enabled, Steps, Body, GraphOf, Sources;
    InvShape(PlanOf(w), x.s);
    OutcomesMove(PlanOf(w), x.s, step, y.s);
    var a := step.a;
    NotStarted(w, x.s, a);
    forall u | u in Sources(w.edges, a)
      ensures u < w.n && u != a && x.s.nodes[u].outcome.Some? && x.s.nodes[u].status == OutcomeStatus(x.s.nodes[u])
    {
      SourcesFinished(w, x.s, a, u);
    }
    forall v: nat | v < w.n ensures CellOk(w, y.s.nodes, y.cells, v) {
      if v == a {
        BodyFrame(w, a, StatusesOf(x.s.nodes), x.cells, OutcomeStatuses(y.s.nodes), y.cells);
      } else {
        assert CellOk(w, x.s.nodes, x.cells, v);
        if x.s.nodes[v].outcome.Some? {
          BodyFrame(w, v, OutcomeStatuses(x.s.nodes), x.cells, OutcomeStatuses(y.s.nodes), y.cells);
        }
      }
    }
  }

  lemma NotStarted(w: Work, s: State, a: nat)
    requires Inv(PlanOf(w), s) && a <= w.n && s.pcs[a] == InBody
    ensures a < w.n && s.nodes[a].outcome == None
  {
    hide Open, OpenFrom, InDegree, NoCut, Roots, RootsFrom, IsRoot, GraphOf;
    hide EdgesOk, HoldsOk, OwnersOk, SettledOk, WorklistOk, FatalOk;
    if a < w.n { LocalRecord(PlanOf(w), s, a); }
  }

  lemma OtherCells(w: Work, x: World, step: Step, y: World)
    requires WorkOk(w) && Shape(PlanOf(w), x.s) && Enabled(PlanOf(w), x.s, step) && |x.cells| == w.n
    requires WorldSteps(w, x, step, y) && CellsOk(w, x) && Calm(x.s) && BodyOf(x.s, step) == None
    ensures CellsOk(w, y)
  {
    hide Steps, Body, GraphOf, Sources;
    OutcomesMove(PlanOf(w), x.s, step, y.s);
    assert y.cells == x.cells;
    assert OutcomeStatuses(y.s.nodes) == OutcomeStatuses(x.s.nodes);
    forall v: nat | v < w.n ensures CellOk(w, y.s.nodes, y.cells, v) {
      assert CellOk(w, x.s.nodes, x.cells, v);
    }
  }

  ghost predicate WorldOk(w: Work, x: World) {
    Inv(PlanOf(w), x.s) && Calm(x.s) && CellsOk(w, x)
  }

  lemma StartOk(w: Work)
    requires WorkOk(w)
    ensures WorldOk(w, Start(w))
  {
    hide Inv, GraphOf, InDegree, Roots, RootsFrom, Body;
    PlanValid(w);
    InitHolds(PlanOf(w));
  }

  lemma {:induction false} WorldKept(w: Work, worlds: seq<World>, steps: seq<Step>, i: nat)
    requires WorkOk(w) && IsWorldRun(w, worlds, steps) && i < |worlds|
    ensures WorldOk(w, worlds[i])
  {
    hide Inv, Calm, CellsOk, WorldSteps, Enabled, Start, PlanOf;
    if i == 0 {
      StartOk(w);
    } else {
      WorldKept(w, worlds, steps, i - 1);
      WorldStepKeeps(w, worlds[i - 1], steps[i - 1], worlds[i]);
    }
  }

  lemma WorldStepKeeps(w: Work, x: World, step: Step, y: World)
    requires WorkOk(w) && WorldOk(w, x) && Shape(PlanOf(w), x.s) && Enabled(PlanOf(w), x.s, step) && |x.cells| == w.n
    requires WorldSteps(w, x, step, y)
    ensures WorldOk(w, y)
  {
    hide Inv, Calm, CellsOk, Enabled, Steps, GraphOf, Body, Shape;
    SchedulerRuns.StepKeeps(PlanOf(w), x.s, step, y.s);
    StepCalm(w, x, step, y);
    if BodyOf(x.s, step).Some? { BodyCells(w, x, step, y); } else { OtherCells(w, x, step, y); }
  }

  // ---- The results ----

  function VerdictOf(nd: Node, cell: Cell): Verdict {
    Verdict(if nd.outcome.Some? then nd.outcome.value else Ok, cell)
  }

  /** What pipe.status() and the cells say of each job. */
  function Verdicts(x: World): (vs: seq<Verdict>)
    requires |x.s.nodes| == |x.cells|
    ensures |vs| == |x.cells|
  {
    seq(|x.cells|, i requires 0 <= i < |x.cells| => VerdictOf(x.s.nodes[i], x.cells[i]))
  }

  lemma EndedNode(w: Work, s: State, v: nat)
    requires WorkOk(w) && Reachable(PlanOf(w), s) && Calm(s) && v < w.n && Acyclic(GraphOf(w))
    requires Shape(PlanOf(w), s) && Quiescent(PlanOf(w), s)
    ensures s.nodes[v].outcome.Some? && s.nodes[v].status == StatusOf(s.nodes[v].outcome.value)
  {
    hide Open, OpenFrom, InDegree, NoCut, Roots, RootsFrom, IsRoot, GraphOf, Quiescent, Reachable;
    hide EdgesOk, HoldsOk, OwnersOk, SettledOk, WorklistOk, FatalOk;
    var p := PlanOf(w);
    ReachableInv(p, s);
    QuiescentRunIsComplete(p, s);
    assert forall u :: !OnDemandSource(p, u);
    QuiescentHarmless(p, s, v);
    LocalRecord(p, s, v);
  }

  /** Whatever the schedule, once nothing can move every job has a status and a cell, and they are the results of
      the recursive definition. */
  lemma EveryScheduleGivesTheResults(w: Work, worlds: seq<World>, steps: seq<Step>)
    requires WorkOk(w) && Acyclic(GraphOf(w)) && IsWorldRun(w, worlds, steps)
    ensures var x := worlds[|worlds| - 1];
      && Shape(PlanOf(w), x.s) && |x.s.nodes| == |x.cells| == w.n
      && (Quiescent(PlanOf(w), x.s) ==>
            && Consistent(w, Verdicts(x))
            && forall v :: 0 <= v < w.n ==>
                 Reported(Verdicts(x)[v]) == if x.cells[v].skipped then Skipped else x.s.nodes[v].status)
  {
    hide Inv, Calm, Quiescent, Body, GraphOf, Reachable, IsWorldRun;
    RunNonEmpty(w, worlds, steps);
    var x := worlds[|worlds| - 1];
    WorldKept(w, worlds, steps, |worlds| - 1);
    Projects(w, worlds, steps, |worlds| - 1);
    InvShape(PlanOf(w), x.s);
    if Quiescent(PlanOf(w), x.s) {
      forall v | 0 <= v < w.n
        ensures x.s.nodes[v].outcome.Some? && x.s.nodes[v].status == StatusOf(x.s.nodes[v].outcome.value)
      {
        EndedNode(w, x.s, v);
      }
      VerdictsConsistent(w, x);
    }
  }

  lemma VerdictsConsistent(w: Work, x: World)
    requires CellsOk(w, x) && forall v :: 0 <= v < w.n ==> x.s.nodes[v].outcome.Some?
    ensures Consistent(w, Verdicts(x))
  {
    hide Body;
    var vs := Verdicts(x);
    assert Statuses(vs) == OutcomeStatuses(x.s.nodes) && Cells(vs) == x.cells;
    forall v {:trigger vs[v]} | 0 <= v < w.n ensures vs[v] == Judge(w, v, vs) {
      assert CellOk(w, x.s.nodes, x.cells, v);
    }
  }

  /** Two schedules of the same request end with the same statuses, outputs, messages and codes. */
  lemma SchedulesAgree(w: Work, worlds: seq<World>, steps: seq<Step>, others: seq<World>, otherSteps: seq<Step>)
    requires WorkOk(w) && Acyclic(GraphOf(w))
    requires IsWorldRun(w, worlds, steps) && IsWorldRun(w, others, otherSteps)
    ensures var x, y := worlds[|worlds| - 1], others[|others| - 1];
      && Shape(PlanOf(w), x.s) && |x.s.nodes| == |x.cells| && Shape(PlanOf(w), y.s) && |y.s.nodes| == |y.cells|
      && (Quiescent(PlanOf(w), x.s) && Quiescent(PlanOf(w), y.s) ==> Verdicts(x) == Verdicts(y))
  {
    hide Shape, Quiescent, Consistent, IsWorldRun, GraphOf;
    EveryScheduleGivesTheResults(w, worlds, steps);
    EveryScheduleGivesTheResults(w, others, otherSteps);
    RunNonEmpty(w, worlds, steps);
    RunNonEmpty(w, others, otherSteps);
    var x, y := worlds[|worlds| - 1], others[|others| - 1];
    if Quiescent(PlanOf(w), x.s) && Quiescent(PlanOf(w), y.s) {
      ConsistentUnique(w, Verdicts(x), Verdicts(y));
    }
  }
}
