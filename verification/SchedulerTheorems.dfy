/** What every threaded run guarantees: safety in each state, and completeness at quiescence. */
module SchedulerTheorems {
  import opened Jobs
  import opened Graphs
  import Kahn
  import opened Scheduler
  import opened SchedulerInvariant
  import opened SchedulerSteps
  import opened SchedulerRuns

  ghost predicate Reachable(p: Plan, s: State) {
    ValidPlan(p) && exists states, steps :: IsRun(p, states, steps) && states[|states| - 1] == s
  }

  lemma ReachableInv(p: Plan, s: State)
    requires Reachable(p, s)
    ensures Inv(p, s)
  {
    hide Inv, Steps;
    var states, steps :| IsRun(p, states, steps) && states[|states| - 1] == s;
    RunInv(p, states, steps, |states| - 1);
  }

  /** The dependency counter of a node is exactly its in-edges that no finished predecessor has
      consumed, counted with multiplicity; a decrement never finds it at zero. */
  lemma UnmetCountsOpenEdges(p: Plan, s: State)
    requires Reachable(p, s)
    ensures Shape(p, s)
    ensures forall v :: 0 <= v < |p.g| ==> s.nodes[v].unmet == Open(p.g, s.cut, v)
    ensures forall a :: 0 <= a < |p.g| && s.pcs[a].Decrement? ==> s.nodes[p.g[a][s.pcs[a].k]].unmet >= 1
  {
    hide OpenFrom, Open, InDegree, NoCut, Roots, RootsFrom, IsRoot;
    hide HoldsOk, OwnersOk, SettledOk, WorklistOk, FatalOk;
    ReachableInv(p, s);
    forall a | 0 <= a < |p.g| && s.pcs[a].Decrement?
      ensures s.nodes[p.g[a][s.pcs[a].k]].unmet >= 1
    {
      LocalRecord(p, s, a);
      OpenPositive(p.g, s.cut, a, s.pcs[a].k);
    }
  }

  /** `u` ran, its body returned, and its result lets dependents proceed. */
  predicate Satisfied(p: Plan, s: State, u: nat)
    requires u < |s.nodes| && u < |p.optional|
  {
    && s.nodes[u].entered == 1
    && s.nodes[u].outcome.Some? && !FatalResult(p.optional[u], s.nodes[u].outcome.value)
    && (s.nodes[u].status == Done || (p.optional[u] && s.nodes[u].status in {Failed, TimedOut}))
  }

  /** No body is entered twice, and none before every predecessor has let it. */
  lemma EnteredOnceAfterPredecessors(p: Plan, s: State)
    requires Reachable(p, s)
    ensures Shape(p, s)
    ensures forall v :: 0 <= v < |p.g| ==> s.nodes[v].entered <= 1
    ensures forall u, v :: 0 <= v < |p.g| && s.nodes[v].entered == 1 && IsEdge(p.g, u, v) ==> Satisfied(p, s, u)
  {
    hide OpenFrom, Open, InDegree, NoCut, Roots, RootsFrom, IsRoot;
    hide LocalsOk, EdgesOk, HoldsOk, OwnersOk, SettledOk, WorklistOk, FatalOk;
    ReachableInv(p, s);
    forall v | 0 <= v < |p.g|
      ensures s.nodes[v].entered <= 1
    {
      LocalRecord(p, s, v);
    }
    forall u, v | 0 <= v < |p.g| && s.nodes[v].entered == 1 && IsEdge(p.g, u, v)
      ensures Satisfied(p, s, u)
    {
      ConsumedPredecessor(p, s, u, v);
    }
  }

  lemma ConsumedPredecessor(p: Plan, s: State, u: nat, v: nat)
    requires Inv(p, s) && v < |p.g| && IsEdge(p.g, u, v) && s.nodes[v].entered == 1
    ensures Satisfied(p, s, u)
  {
    hide OpenFrom, Open, InDegree, NoCut, Roots, RootsFrom, IsRoot;
    hide HoldsOk, OwnersOk, SettledOk, WorklistOk, FatalOk;
    LocalRecord(p, s, v);
    LocalRecord(p, s, u);
    var e :| 0 <= e < |p.g[u]| && p.g[u][e] == v;
    assert s.nodes[v].unmet == Open(p.g, s.cut, v);
    OpenZero(p.g, s.cut, v);
    assert e < s.cut[u];
  }

  /** Whatever lies below a node that did not end well, however far, was never entered. */
  lemma {:induction false} NothingRunsBelow(p: Plan, s: State, path: seq<nat>)
    requires Reachable(p, s) && IsPath(p.g, path) && |path| > 1
    ensures Shape(p, s)
    ensures s.nodes[path[|path| - 1]].entered == 1 ==> Satisfied(p, s, path[0])
    decreases |path|
  {
    hide Reachable;
    EnteredOnceAfterPredecessors(p, s);
    var last := |path| - 1;
    assert IsEdge(p.g, path[last - 1], path[last]);
    if last > 1 {
      NothingRunsBelow(p, s, path[..last]);
    }
  }

  /** The skip worklist holds exactly the Skipped nodes, each once, so it never outgrows the number of nodes; and
      nothing is skipped without a fatal error. */
  lemma SkippedOnce(p: Plan, s: State)
    requires Reachable(p, s)
    ensures Shape(p, s) && |s.skipped| <= |p.g|
    ensures forall i, j :: 0 <= i < j < |s.skipped| ==> s.skipped[i] != s.skipped[j]
    ensures forall v :: 0 <= v < |p.g| ==> (v in s.skipped <==> s.nodes[v].status == Skipped)
    ensures s.skipped != [] ==> s.fatal
  {
    hide OpenFrom, Open, InDegree, NoCut, Roots, RootsFrom, IsRoot, Reachable;
    hide LocalsOk, EdgesOk, HoldsOk, OwnersOk, SettledOk;
    ReachableInv(p, s);
    Kahn.DistinctBounded(s.skipped, |p.g|);
    forall v | 0 <= v < |p.g| ensures v in s.skipped <==> s.nodes[v].status == Skipped {
      assert s.nodes[v].status == Skipped ==> Listed(s.skipped, v);
    }
  }

  // ---- Quiescence ----

  /** No step is possible any more. */
  ghost predicate Quiescent(p: Plan, s: State)
    requires Shape(p, s)
  {
    forall step: Step :: !Enabled(p, s, step)
  }

  /** An enabled agent is never stuck: its action leads somewhere. */
  lemma EnabledCanStep(p: Plan, s: State, step: Step) returns (t: State)
    requires Inv(p, s) && Enabled(p, s, step)
    ensures Steps(p, s, step, t)
  {
    hide OpenFrom, Open, InDegree, NoCut, Roots, RootsFrom, IsRoot;
    hide EdgesOk, HoldsOk, OwnersOk, SettledOk, WorklistOk, FatalOk;
    hide DoQueued, DoClaiming, DoBody, DoStoring, DoRecording, DoFailing, DoEdge, DoDecrement, DoWaking;
    hide DoDispatching, DoRejecting, DoRejectRecording, DoSweeping, DrainPop, DrainExpand;
    match step
    case DrainStep => t := if s.drain.Pop? then DrainPop(s) else DrainExpand(p, s);
    case AgentStep(a, c) =>
      if a < |p.g| { LocalRecord(p, s, a); }
      match s.pcs[a]
      case Queued => t := DoQueued(p, s, a);
      case Claiming => t := DoClaiming(p, s, a);
      case InBody => t := DoBody(p, s, a, c);
      case Waiting => t := DoBody(p, s, a, c);
      case Storing => t := DoStoring(p, s, a);
      case Recording => t := DoRecording(p, s, a);
      case Failing(_) => t := DoFailing(p, s, a);
      case Edge(_) => t := DoEdge(p, s, a);
      case Decrement(_) => t := DoDecrement(p, s, a);
      case Waking(_) => t := DoWaking(p, s, a);
      case Dispatching(_) => t := DoDispatching(p, s, a, c);
      case Rejecting(_) => t := DoRejecting(p, s, a);
      case RejectRecording(_) => t := DoRejectRecording(p, s, a);
      case Sweeping(_) => t := DoSweeping(p, s, a);
  }

  lemma QuiescentPcs(p: Plan, s: State)
    requires Shape(p, s) && Quiescent(p, s)
    ensures forall a :: 0 <= a <= |p.g| ==> s.pcs[a] == Idle || s.pcs[a] == Ended
    ensures s.drain == NotDraining
  {
    forall a | 0 <= a <= |p.g|
      ensures s.pcs[a] == Idle || s.pcs[a] == Ended
    {
      assert !Enabled(p, s, AgentStep(a, Choice(Ok, false, false)));
    }
    assert !Enabled(p, s, DrainStep);
  }

  /** At quiescence a node is either finished or Pending. */
  lemma QuiescentStatus(p: Plan, s: State, v: nat)
    requires Inv(p, s) && Quiescent(p, s) && v < |p.g|
    ensures Terminal(s.nodes[v].status) || s.nodes[v].status == Pending
    ensures s.nodes[v].status == Pending ==>
              s.nodes[v].unmet > 0 || (InDegree(p.g, v) == 0 && p.onDemand[v])
  {
    hide OpenFrom, Open, InDegree, NoCut, Roots, RootsFrom, IsRoot;
    hide LocalsOk, OwnersOk, HoldsOk, SettledOk, WorklistOk, FatalOk;
    QuiescentPcs(p, s);
    LocalRecord(p, s, v);
    OwnerFact(p, s, v);
    assert s.nodes[v].unmet == Open(p.g, s.cut, v);
  }

  /** At quiescence, the successors of a finished node are settled, except along edges that it
      consumed. */
  lemma QuiescentSuccessor(p: Plan, s: State, u: nat, e: nat)
    requires Inv(p, s) && Quiescent(p, s) && u < |p.g| && s.cut[u] <= e < |p.g[u]|
    requires s.nodes[u].status != Pending
    ensures Settled(s, p.g[u][e])
  {
    hide OpenFrom, Open, InDegree, NoCut, Roots, RootsFrom, IsRoot;
    hide LocalsOk, EdgesOk, HoldsOk, OwnersOk, FatalOk;
    QuiescentPcs(p, s);
    QuiescentStatus(p, s, u);
    LocalRecord(p, s, u);
    OwnerFact(p, s, u);
    if s.nodes[u].status == Skipped {
      assert Listed(s.skipped, u);
      var i :| 0 <= i < |s.skipped| && s.skipped[i] == u;
      assert AllSettled(s, p.g[s.skipped[i]], 0, |p.g[s.skipped[i]]|);
    } else {
      assert PassedOk(p, s, u);
    }
  }

  /** At quiescence a Pending node is an on-demand source, or has a Pending predecessor. */
  lemma PendingPredecessor(p: Plan, s: State, v: nat) returns (u: nat)
    requires Inv(p, s) && Quiescent(p, s) && v < |p.g| && s.nodes[v].status == Pending
    requires !(InDegree(p.g, v) == 0 && p.onDemand[v])
    ensures IsEdge(p.g, u, v) && s.nodes[u].status == Pending
  {
    hide OpenFrom, Open, InDegree, NoCut, Roots, RootsFrom, IsRoot;
    hide LocalsOk, HoldsOk, OwnersOk, FatalOk, SettledOk, WorklistOk;
    QuiescentStatus(p, s, v);
    assert s.nodes[v].unmet == Open(p.g, s.cut, v);
    var e;
    u, e := OpenWitness(p.g, s.cut, v);
    if s.nodes[u].status != Pending {
      QuiescentSuccessor(p, s, u, e);
    }
  }

  /** A source that run() never starts: nothing precedes it and it is on-demand. */
  predicate OnDemandSource(p: Plan, w: nat) {
    w < |p.g| && w < |p.onDemand| && InDegree(p.g, w) == 0 && p.onDemand[w]
  }

  lemma {:induction false} PendingSource(p: Plan, s: State, order: seq<nat>, y: nat) returns (path: seq<nat>)
    requires Inv(p, s) && Quiescent(p, s) && Kahn.IsTopological(p.g, order) && y < |order|
    requires s.nodes[order[y]].status == Pending
    ensures IsPath(p.g, path) && path[|path| - 1] == order[y] && OnDemandSource(p, path[0])
    decreases y
  {
    hide Inv, Quiescent, InDegree;
    if OnDemandSource(p, order[y]) {
      path := [order[y]];
    } else {
      InvShape(p, s);
      var u := PendingPredecessor(p, s, order[y]);
      var e :| 0 <= e < |p.g[u]| && p.g[u][e] == order[y];
      assert u in order[..y];
      var z :| 0 <= z < y && order[z] == u;
      var q := PendingSource(p, s, order, z);
      path := q + [order[y]];
    }
  }

  lemma InvShape(p: Plan, s: State)
    requires Inv(p, s)
    ensures Shape(p, s)
  {
  }

  /** When nothing can move any more, every node that no on-demand source leads to has finished and
      was counted exactly once; the others are untouched or finished, and the total is right. */
  lemma QuiescentRunIsComplete(p: Plan, s: State)
    requires Reachable(p, s) && Acyclic(p.g)
    ensures Shape(p, s)
    ensures Quiescent(p, s) ==>
      && (forall v :: 0 <= v < |p.g| && (forall w :: Reaches(p.g, w, v) ==> !OnDemandSource(p, w)) ==>
            Terminal(s.nodes[v].status))
      && (forall v :: 0 <= v < |p.g| ==> s.nodes[v].counted == if Terminal(s.nodes[v].status) then 1 else 0)
      && s.completed == |set v | 0 <= v < |p.g| && Terminal(s.nodes[v].status)|
  {
    hide OpenFrom, Open, InDegree, NoCut, Roots, RootsFrom, IsRoot, Quiescent, OnDemandSource;
    hide LocalsOk, EdgesOk, HoldsOk, OwnersOk, FatalOk, SettledOk, WorklistOk;
    ReachableInv(p, s);
    if Quiescent(p, s) {
      forall v | 0 <= v < |p.g|
        ensures s.nodes[v].counted == if Terminal(s.nodes[v].status) then 1 else 0
      {
        QuiescentCount(p, s, v);
      }
      forall v | 0 <= v < |p.g| && (forall w :: Reaches(p.g, w, v) ==> !OnDemandSource(p, w))
        ensures Terminal(s.nodes[v].status)
      {
        QuiescentStatus(p, s, v);
        if s.nodes[v].status == Pending {
          PendingIsReached(p, s, v);
        }
      }
      SumIsCardinality(s.nodes);
    }
  }

  /** Counting each terminal node once counts the terminal nodes. */
  lemma {:induction false} SumIsCardinality(nodes: seq<Node>)
    requires forall v :: 0 <= v < |nodes| ==> nodes[v].counted == if Terminal(nodes[v].status) then 1 else 0
    ensures SumCounted(nodes) == |set v | 0 <= v < |nodes| && Terminal(nodes[v].status)|
  {
    if nodes != [] {
      var n := |nodes| - 1;
      var front := nodes[..n];
      SumIsCardinality(front);
      var sub := set v | 0 <= v < |front| && Terminal(front[v].status);
      var all := set v | 0 <= v < |nodes| && Terminal(nodes[v].status);
      assert all == if Terminal(nodes[n].status) then sub + {n} else sub;
    }
  }

  lemma QuiescentCount(p: Plan, s: State, v: nat)
    requires Inv(p, s) && Quiescent(p, s) && v < |p.g|
    ensures s.nodes[v].counted == if Terminal(s.nodes[v].status) then 1 else 0
  {
    hide OpenFrom, Open, InDegree, NoCut, Roots, RootsFrom, IsRoot, Quiescent;
    hide LocalsOk, EdgesOk, HoldsOk, OwnersOk, FatalOk, SettledOk;
    QuiescentStatus(p, s, v);
    QuiescentPcs(p, s);
    LocalRecord(p, s, v);
    if s.nodes[v].status == Skipped {
      assert Listed(s.skipped, v);
    }
  }

  lemma PendingIsReached(p: Plan, s: State, v: nat)
    requires Inv(p, s) && Quiescent(p, s) && Acyclic(p.g) && v < |p.g| && s.nodes[v].status == Pending
    ensures exists w :: Reaches(p.g, w, v) && OnDemandSource(p, w)
  {
    hide Inv, Quiescent, InDegree, Kahn.WorkOk;
    InvShape(p, s);
    var order := Kahn.Order(p.g);
    Kahn.OrderTheorem(p.g);
    Kahn.InOrder(|p.g|, order, v);
    var y :| 0 <= y < |order| && order[y] == v;
    var path := PendingSource(p, s, order, y);
    assert Reaches(p.g, path[0], v);
  }

  // ---- The result of a run ----

  /** What run() returns once everything it started has ended. */
  function RunResult(s: State): Result {
    if s.fatal && s.failure.Some? then Err(s.failure.value.1) else Ok
  }

  /** At quiescence run() succeeds exactly when every body that returned and every submission was
      harmless; then nothing was skipped or cancelled. An error names its culprit. */
  lemma RunResultTheorem(p: Plan, s: State)
    requires Reachable(p, s)
    ensures Shape(p, s)
    ensures Quiescent(p, s) ==>
      && (RunResult(s) == Ok <==>
            forall v :: 0 <= v < |p.g| && Terminal(s.nodes[v].status) ==> Satisfied(p, s, v))
      && (RunResult(s) == Ok ==>
            forall v :: 0 <= v < |p.g| ==> s.nodes[v].status != Skipped && s.nodes[v].status != WasCancelled)
      && (RunResult(s).Err? ==>
            && s.failure.Some? && s.failure.value.0 < |p.g|
            && (var nd := s.nodes[s.failure.value.0];
                || (nd.outcome == Some(RunResult(s)) && FatalResult(p.optional[s.failure.value.0], RunResult(s)))
                || (nd.entered == 0 && nd.status == Failed && RunResult(s) == Err(JobFailed))))
  {
    hide OpenFrom, Open, InDegree, NoCut, Roots, RootsFrom, IsRoot, Quiescent;
    hide LocalsOk, EdgesOk, HoldsOk, OwnersOk, SettledOk, WorklistOk;
    ReachableInv(p, s);
    if Quiescent(p, s) {
      forall v | 0 <= v < |p.g| && !s.fatal && Terminal(s.nodes[v].status)
        ensures Satisfied(p, s, v)
      {
        QuiescentHarmless(p, s, v);
      }
      if s.fatal {
        QuiescentCulprit(p, s, s.failure.value.0, s.failure.value.1);
      }
    }
  }

  lemma QuiescentCulprit(p: Plan, s: State, v: nat, e: PipelineError)
    requires Inv(p, s) && Quiescent(p, s) && FailureOk(p, s, v, e)
    ensures Terminal(s.nodes[v].status) && !Satisfied(p, s, v)
  {
    hide OpenFrom, Open, InDegree, NoCut, Roots, RootsFrom, IsRoot, Quiescent;
    hide LocalsOk, EdgesOk, HoldsOk, OwnersOk, SettledOk, WorklistOk, FatalOk;
    QuiescentPcs(p, s);
    LocalRecord(p, s, v);
  }

  lemma QuiescentHarmless(p: Plan, s: State, v: nat)
    requires Inv(p, s) && Quiescent(p, s) && v < |p.g| && !s.fatal && Terminal(s.nodes[v].status)
    ensures Satisfied(p, s, v)
  {
    hide OpenFrom, Open, InDegree, NoCut, Roots, RootsFrom, IsRoot, Quiescent;
    hide LocalsOk, EdgesOk, HoldsOk, OwnersOk, SettledOk;
    QuiescentPcs(p, s);
    LocalRecord(p, s, v);
    OwnerFact(p, s, v);
    SkippedMeansFatal(p, s);
  }
}
