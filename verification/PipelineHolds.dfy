/** Histories in which a run goes on until one deferred job, awaiting its Completion, is all that is left. */
module PipelineHolds {
  import opened Jobs
  import opened Graphs
  import Kahn
  import opened Scheduler
  import opened SchedulerInvariant
  import opened SchedulerTheorems
  import SR = SchedulerRuns
  import D = Deferred
  import DR = DeferredRuns
  import opened PipelineRuns
  import opened PipelineStages
  import opened PipelineEdges

  // ---- Submitting the roots ----

  /** The first `k` roots have been handed over. */
  ghost function HandedOver(p: Plan, k: nat): State
    requires k <= |Roots(p)|
  {
    var n := |p.g|;
    Scheduler.Init(p).(pcs := seq(n, v => if v in Roots(p)[..k] then Queued else Idle) + [Edge(k)])
  }

  ghost predicate Starting(p: Plan, w: World, k: nat) {
    && Occurs(p, w) && ValidPlan(p) && !w.unfinished && k <= |Roots(p)| && w.wait == Wait.Submitting
    && w.s == HandedOver(p, k) && w.d == Slotted(p, {}, |p.g|, D.Fresh(), 0)
  }

  lemma RunStarts(p: Plan) returns (w: World)
    requires ValidPlan(p)
    ensures Starting(p, w, 0)
  {
    hide Roots, InDegree, Next;
    var w0 := Created(p);
    assert IsHistory(p, [w0]) && [w0][|[w0]| - 1] == w0;
    var w1 := w0.(d := DR.Step(w0.d, DR.BeginRun));
    OccursNext(p, w0, BeginRun, w1);
    var w2 := World(Scheduler.Init(p), DR.Step(w1.d, DR.StartRun(false)), Wait.Submitting, 0, {}, {}, 0, true, false, false);
    OccursNext(p, w1, StartRun(false), w2);
    assert Scheduler.Init(p).pcs == HandedOver(p, 0).pcs;
    assert forall i :: 0 <= i < |p.g| ==> w2.d.slots[i] == Renewed(D.Fresh());
    assert w2.d.slots == Slots(p, {}, |p.g|, D.Fresh());
    w := w2;
  }

  function Renewed(x: D.Slot): D.Slot { DR.Renewed(x) }

  /** The submitting agent's three kinds of step. */
  lemma RootEdge(p: Plan, s: State, k: nat, c: Choice)
    requires Shape(p, s) && s.pcs[|p.g|] == Edge(k) && !s.fatal && k <= |Roots(p)|
    ensures SR.Enabled(p, s, SR.AgentStep(|p.g|, c))
    ensures SR.Steps(p, s, SR.AgentStep(|p.g|, c),
              Move(s, |p.g|, if k == |Roots(p)| then Ended else Dispatching(k)))
  {
    hide Roots, InDegree, NoCut, IsCut;
  }

  lemma RootDispatch(p: Plan, s: State, k: nat)
    requires Shape(p, s) && s.pcs[|p.g|] == Dispatching(k) && k < |Roots(p)| && Roots(p)[k] < |p.g|
    ensures SR.Enabled(p, s, SR.AgentStep(|p.g|, Choice(Ok, false, true)))
    ensures SR.Steps(p, s, SR.AgentStep(|p.g|, Choice(Ok, false, true)),
              Move(Move(s, |p.g|, Edge(k + 1)), Roots(p)[k], Queued))
  {
    hide Roots, InDegree, NoCut, IsCut;
  }

  lemma SubmittingNext(p: Plan, k: nat)
    requires k < |Roots(p)|
    ensures Roots(p)[k] < |p.g|
    ensures HandedOver(p, k).pcs[|p.g| := Dispatching(k)][|p.g| := Edge(k + 1)][Roots(p)[k] := Queued]
         == HandedOver(p, k + 1).pcs
  {
    hide RootsFrom, InDegree, NoCut, IsRoot;
    RootsNext(p, k);
  }

  lemma SubmittingAt(p: Plan, k: nat)
    requires k <= |Roots(p)|
    ensures |HandedOver(p, k).pcs| == |p.g| + 1 && HandedOver(p, k).pcs[|p.g|] == Edge(k) && !HandedOver(p, k).fatal
    ensures HandedOver(p, k).drain.NotDraining?
    ensures k < |Roots(p)| ==> HandedOver(p, k + 1) == HandedOver(p, k).(pcs := HandedOver(p, k + 1).pcs)
  {
    hide Roots, InDegree, NoCut, IsRoot;
  }

  /** One root: the flag is read, the executor accepts. */
  lemma SubmitRoot(p: Plan, w: World, k: nat) returns (y: World)
    requires Starting(p, w, k) && k < |Roots(p)|
    ensures Starting(p, y, k + 1)
  {
    hide Occurs, Inv, Roots, HandedOver, SR.Steps, SR.Enabled, Shape, D.Fresh, AgentGuard;
    WorldInv(p, w);
    InvShape(p, w.s);
    SubmittingAt(p, k);
    SubmittingNext(p, k);
    RootEdge(p, w.s, k, Choice(Ok, false, true));
    var w1 := w.(s := Move(w.s, |p.g|, Dispatching(k)), drainer := |p.g|);
    AgentOccurs(p, w, |p.g|, Choice(Ok, false, true), w1.s);
    RootDispatch(p, w1.s, k);
    y := w1.(s := Move(Move(w1.s, |p.g|, Edge(k + 1)), Roots(p)[k], Queued), drainer := |p.g|);
    AgentOccurs(p, w1, |p.g|, Choice(Ok, false, true), y.s);
  }

  lemma RootsNext(p: Plan, k: nat)
    requires k < |Roots(p)|
    ensures Roots(p)[..k + 1] == Roots(p)[..k] + [Roots(p)[k]]
    ensures Roots(p)[k] < |p.g|
  {
  }

  lemma {:induction false} SubmitRoots(p: Plan, w: World, k: nat) returns (y: World)
    requires Starting(p, w, k)
    ensures Starting(p, y, |Roots(p)|)
    decreases |Roots(p)| - k
  {
    hide Starting, Roots;
    StartingBound(p, w, k);
    if k < |Roots(p)| {
      y := SubmitRoot(p, w, k);
      y := SubmitRoots(p, y, k + 1);
    } else {
      y := w;
    }
  }

  lemma StartingBound(p: Plan, w: World, k: nat)
    requires Starting(p, w, k)
    ensures k <= |Roots(p)|
  {
  }

  lemma StageStarted(p: Plan, t: State)
    requires ValidPlan(p) && Shape(p, t) && t == Move(HandedOver(p, |Roots(p)|), |p.g|, Ended)
    ensures Stage(p, t, {}, |p.g|, Ended, 0)
  {
    hide RootsFrom, Open, OpenFrom;
    assert Roots(p)[..|Roots(p)|] == Roots(p);
    forall v {:trigger t.pcs[v]} | 0 <= v < |p.g|
      ensures Apart(OnDemandSource(p, v), false, t.nodes[v], t.pcs[v], t.cut[v], |p.g[v]|)
    {
      assert v in Roots(p) <==> IsRoot(p, v);
    }
  }

  lemma RootsSubmitted(p: Plan) returns (w: World)
    requires ValidPlan(p)
    ensures Between(p, w, {}) && w.wait == Wait.Submitting
  {
    hide Occurs, Inv, Roots, HandedOver, SR.Steps, SR.Enabled, Shape, D.Fresh, AgentGuard, Stage;
    var w1 := RunStarts(p);
    w1 := SubmitRoots(p, w1, 0);
    WorldInv(p, w1);
    InvShape(p, w1.s);
    SubmittingAt(p, |Roots(p)|);
    RootEdge(p, w1.s, |Roots(p)|, Choice(Ok, false, true));
    w := w1.(s := Move(w1.s, |p.g|, Ended), drainer := |p.g|);
    AgentOccurs(p, w1, |p.g|, Choice(Ok, false, true), w.s);
    StageStarted(p, w.s);
  }

  // ---- Everything that does not wait for one job ----

  /** The jobs that can be run while job `d` is held back. */
  ghost function Before(p: Plan, d: nat): set<nat> {
    set v: nat | v < |p.g| && Startable(p, v) && !Graphs.Reaches(p.g, d, v)
  }

  /** A walk to `v` is `v` itself or comes through a predecessor. */
  lemma ReachesThrough(g: Graph, o: nat, v: nat) returns (u: nat)
    requires Graphs.Reaches(g, o, v)
    ensures o == v || (IsEdge(g, u, v) && Graphs.Reaches(g, o, u))
  {
    var path :| IsPath(g, path) && path[0] == o && path[|path| - 1] == v;
    var last := |path| - 1;
    u := o;
    if last > 0 {
      u := path[last - 1];
      assert IsPath(g, path[..last]) && path[..last][0] == o && path[..last][last - 1] == u;
    }
  }

  lemma StartableTarget(p: Plan, v: nat)
    requires ValidPlan(p) && !OnDemandSource(p, v) && forall u :: IsEdge(p.g, u, v) ==> Startable(p, u)
    ensures Startable(p, v)
  {
    hide OnDemandSource, Graphs.Reaches;
    forall o: nat | Graphs.Reaches(p.g, o, v) ensures !OnDemandSource(p, o) {
      var u := ReachesThrough(p.g, o, v);
      if o != v { assert Startable(p, u); }
    }
  }

  lemma SelfStartable(p: Plan, v: nat)
    requires Startable(p, v) && v < |p.g|
    ensures !OnDemandSource(p, v)
  {
    hide OnDemandSource;
    assert IsPath(p.g, [v]);
    assert Graphs.Reaches(p.g, v, v);
  }

  lemma BeforeSources(p: Plan, d: nat, u: nat, v: nat)
    requires ValidPlan(p) && v in Before(p, d) && IsEdge(p.g, u, v)
    ensures u in Before(p, d)
  {
    hide Startable, Graphs.Reaches;
    StartableSource(p, u, v);
    if Graphs.Reaches(p.g, d, u) { ReachesNext(p.g, d, u, v); }
  }

  lemma UnmetIsOpen(p: Plan, s: State, v: nat)
    requires Inv(p, s) && v < |p.g|
    ensures IsCut(p.g, s.cut) && v < |s.nodes| && s.nodes[v].unmet == Open(p.g, s.cut, v)
  {
    hide Open, LocalsOk, HoldsOk, OwnersOk, SettledOk, WorklistOk, FatalOk, PcShape;
  }

  /** A node no edge is open to has its predecessors' edges consumed, and the count says so. */
  lemma UnmetAt(p: Plan, w: World, v: nat)
    requires ValidPlan(p) && Occurs(p, w) && !w.unfinished && Threaded(w) && v < |p.g|
    ensures IsCut(p.g, w.s.cut) && v < |w.s.nodes| && w.s.nodes[v].unmet == Open(p.g, w.s.cut, v)
  {
    hide Occurs, Inv, DR.Inv, LinksOk, Open, IsCut;
    WorldInv(p, w);
    UnmetIsOpen(p, w.s, v);
  }

  /** What a stage says of a node other than the active one. */
  lemma StageApart(p: Plan, s: State, done: set<nat>, u: nat, pc: Pc, cut: nat, v: nat)
    requires Stage(p, s, done, u, pc, cut) && v < |p.g| && v != u
    ensures |s.pcs| == |p.g| + 1 && |s.nodes| == |p.g| && |s.cut| == |p.g|
    ensures Apart(OnDemandSource(p, v), v in done, s.nodes[v], s.pcs[v], s.cut[v], |p.g[v]|)
  {
    hide OnDemandSource, Apart;
  }

  /** A job whose predecessors are all done is queued. */
  lemma QueuedWhenReady(p: Plan, w: World, done: set<nat>, v: nat)
    requires Between(p, w, done) && v < |p.g| && v !in done && !OnDemandSource(p, v)
    requires forall u :: IsEdge(p.g, u, v) ==> u in done
    ensures v < |w.s.pcs| && w.s.pcs[v] == Queued
  {
    hide Occurs, OnDemandSource, Open, Stage, IsCut;
    UnmetAt(p, w, v);
    StageApart(p, w.s, done, |p.g|, Ended, 0, v);
    if Open(p.g, w.s.cut, v) > 0 {
      var u, e := OpenWitness(p.g, w.s.cut, v);
      NotDone(p, w.s, done, u, e, v);
    }
  }

  lemma NotDone(p: Plan, s: State, done: set<nat>, u: nat, e: nat, v: nat)
    requires Stage(p, s, done, |p.g|, Ended, 0) && u < |p.g| && u < |s.cut| && s.cut[u] <= e < |p.g[u]| && p.g[u][e] == v
    ensures IsEdge(p.g, u, v) && u !in done
  {
    hide OnDemandSource, Stage;
    StageApart(p, s, done, |p.g|, Ended, 0, u);
  }

  /** All jobs that do not wait for `d` are run, in a topological order. */
  lemma {:induction false} RunBefore(p: Plan, w: World, done: set<nat>, d: nat, order: seq<nat>, i: nat)
    returns (y: World)
    requires Between(p, w, done) && Kahn.IsTopological(p.g, order) && i <= |order| && done <= Before(p, d)
    requires forall j :: 0 <= j < i && order[j] in Before(p, d) ==> order[j] in done
    ensures SameWait(w, y) && Between(p, y, Before(p, d))
    decreases |order| - i
  {
    hide Between, Before, OnDemandSource;
    if i == |order| {
      AllBefore(p, done, d, order);
      y := w;
    } else {
      var v := order[i];
      if v in Before(p, d) && v !in done {
        ReadyBefore(p, w, done, d, order, i);
        y := RunJob(p, w, done, v);
        y := RunBefore(p, y, done + {v}, d, order, i + 1);
      } else {
        y := RunBefore(p, w, done, d, order, i + 1);
      }
    }
  }

  lemma AllBefore(p: Plan, done: set<nat>, d: nat, order: seq<nat>)
    requires Kahn.IsTopological(p.g, order) && done <= Before(p, d)
    requires forall j :: 0 <= j < |order| && order[j] in Before(p, d) ==> order[j] in done
    ensures done == Before(p, d)
  {
    hide Startable, Graphs.Reaches;
    forall v | v in Before(p, d) ensures v in done {
      Kahn.InOrder(|p.g|, order, v);
    }
  }

  lemma ReadyBefore(p: Plan, w: World, done: set<nat>, d: nat, order: seq<nat>, i: nat)
    requires Between(p, w, done) && Kahn.IsTopological(p.g, order) && i < |order| && order[i] in Before(p, d)
    requires order[i] !in done
    requires forall j :: 0 <= j < i && order[j] in Before(p, d) ==> order[j] in done
    ensures order[i] < |p.g| && order[i] < |w.s.pcs| && w.s.pcs[order[i]] == Queued
  {
    hide Startable, Graphs.Reaches, OnDemandSource, Occurs, Stage;
    var v := order[i];
    SelfStartable(p, v);
    forall u: nat | IsEdge(p.g, u, v) ensures u in done {
      BeforeSources(p, d, u, v);
      var e :| 0 <= e < |p.g[u]| && p.g[u][e] == v;
      assert u in order[..i];
      var j :| 0 <= j < i && order[..i][j] == u;
      assert order[j] == u;
    }
    QueuedWhenReady(p, w, done, v);
  }

  // ---- Nothing else on the executor ----

  ghost predicate HeldBack(p: Plan, w: World, d: nat) {
    d < |p.g| && |p.deferred| == |p.g| && p.deferred[d] && At(p, w, Before(p, d), d, Waiting, 0, KeptSlot(), 1)
  }

  lemma CutBefore(p: Plan, s: State, done: set<nat>, d: nat, u: nat, e: nat)
    requires Stage(p, s, done, d, Waiting, 0) && d < |p.g| && u < |p.g| && u < |s.cut| && e < s.cut[u]
    ensures u in done
  {
    hide OnDemandSource;
    if u != d { StageApart(p, s, done, d, Waiting, 0, u); }
  }

  /** The predecessors of a node that waits for nothing are done. */
  lemma ReadySources(p: Plan, w: World, d: nat, v: nat, u: nat)
    requires HeldBack(p, w, d) && v < |p.g| && v < |w.s.nodes| && w.s.nodes[v].unmet == 0 && IsEdge(p.g, u, v)
    ensures u in Before(p, d)
  {
    hide Occurs, Open, Before, Stage, IsCut;
    UnmetAt(p, w, v);
    OpenZero(p.g, w.s.cut, v);
    var e :| 0 <= e < |p.g[u]| && p.g[u][e] == v;
    CutSized(p.g, w.s.cut);
    CutBefore(p, w.s, Before(p, d), d, u, e);
  }

  lemma CutSized(g: Graph, cut: seq<nat>)
    requires IsCut(g, cut)
    ensures |cut| == |g|
  {
  }

  /** A job that waits for nothing does not wait for `d`. */
  lemma ReadyIsBefore(p: Plan, w: World, d: nat, v: nat)
    requires HeldBack(p, w, d) && v < |p.g| && v != d && v < |w.s.nodes| && w.s.nodes[v].unmet == 0 && !OnDemandSource(p, v)
    ensures v in Before(p, d)
  {
    hide HeldBack, OnDemandSource, Startable, Graphs.Reaches, IsEdge;
    forall u: nat | IsEdge(p.g, u, v) ensures u in Before(p, d) {
      ReadySources(p, w, d, v, u);
    }
    HeldValid(p, w, d);
    StartableTarget(p, v);
    if Graphs.Reaches(p.g, d, v) {
      var u := ReachesThrough(p.g, d, v);
      ReadySources(p, w, d, v, u);
    }
  }

  lemma HeldValid(p: Plan, w: World, d: nat)
    requires HeldBack(p, w, d)
    ensures ValidPlan(p)
  {
  }

  lemma OthersEnded(p: Plan, w: World, d: nat, v: nat)
    requires HeldBack(p, w, d) && v < |p.g| && v != d
    ensures v < |w.s.pcs| && (w.s.pcs[v] == Idle || w.s.pcs[v] == Ended)
  {
    hide Occurs, OnDemandSource, Before;
    StageSized(p, w.s, Before(p, d), d, Waiting, 0);
    assert Apart(OnDemandSource(p, v), v in Before(p, d), w.s.nodes[v], w.s.pcs[v], w.s.cut[v], |p.g[v]|);
    if w.s.nodes[v].unmet == 0 && !OnDemandSource(p, v) { ReadyIsBefore(p, w, d, v); }
  }

  lemma HeldIdle(p: Plan, w: World, d: nat)
    requires HeldBack(p, w, d)
    ensures ExecutorIdle(p, w)
  {
    hide Occurs, Stage, Before, DR.Still;
    StageSized(p, w.s, Before(p, d), d, Waiting, 0);
    HeldSlots(p, w.d, Before(p, d), d);
    forall a: nat | a < |p.g| && Acting(w, a)
      ensures a == d
    {
      if a != d { OthersEnded(p, w, d, a); }
    }
    assert w.d.slots[d].body.Left?;
  }

  lemma HeldSlots(p: Plan, d: DR.State, done: set<nat>, u: nat)
    requires u < |p.deferred| && d == Slotted(p, done, u, KeptSlot(), 1)
    ensures DR.Idle(d) && d.slots[u].body.Left? && forall i {:trigger d.slots[i]} :: 0 <= i < |d.slots| ==> d.slots[i].leaving == 0
  {
  }

  /** The run goes on until only `d`, awaiting its Completion, is left. */
  lemma HoldBack(p: Plan, w: World, done: set<nat>, d: nat) returns (y: World)
    requires Between(p, w, done) && Acyclic(p.g) && done <= Before(p, d)
    requires d < |p.g| && p.deferred[d] && Startable(p, d)
    ensures SameWait(w, y) && HeldBack(p, y, d)
  {
    hide Between, Before, Startable, OnDemandSource, Kahn.IsTopological, Kahn.Order;
    BetweenValid(p, w, done);
    Kahn.OrderTheorem(p.g);
    y := RunBefore(p, w, done, d, Kahn.Order(p.g), 0);
    HeldReady(p, y, d);
    y := StartDeferred(p, y, Before(p, d), d);
  }

  lemma BetweenValid(p: Plan, w: World, done: set<nat>)
    requires Between(p, w, done)
    ensures ValidPlan(p)
  {
  }

  lemma HeldReady(p: Plan, w: World, d: nat)
    requires Between(p, w, Before(p, d)) && d < |p.g| && Startable(p, d) && Acyclic(p.g)
    ensures d !in Before(p, d) && d < |w.s.pcs| && w.s.pcs[d] == Queued
  {
    hide Startable, OnDemandSource, Occurs, Stage, Graphs.Reaches;
    SelfReaches(p.g, d);
    SelfStartable(p, d);
    forall u | IsEdge(p.g, u, d) ensures u in Before(p, d) {
      StartableSource(p, u, d);
      NoWayBack(p.g, d, u);
    }
    QueuedWhenReady(p, w, Before(p, d), d);
  }

  lemma SelfReaches(g: Graph, d: nat)
    requires d < |g|
    ensures Graphs.Reaches(g, d, d)
  {
    assert IsPath(g, [d]);
  }

  /** An edge back to where a walk started closes a cycle. */
  lemma ClosedWalk(g: Graph, d: nat, u: nat) returns (cycle: seq<nat>)
    requires WellFormed(g) && IsEdge(g, u, d) && Graphs.Reaches(g, d, u)
    ensures IsPath(g, cycle) && |cycle| > 1 && cycle[0] == cycle[|cycle| - 1]
  {
    var path :| IsPath(g, path) && path[0] == d && path[|path| - 1] == u;
    cycle := path + [d];
  }

  /** In an acyclic graph nothing below a node is above it. */
  lemma NoWayBack(g: Graph, d: nat, u: nat)
    requires WellFormed(g) && Acyclic(g) && IsEdge(g, u, d)
    ensures !Graphs.Reaches(g, d, u)
  {
    hide Graphs.Reaches;
    if Graphs.Reaches(g, d, u) {
      var cycle := ClosedWalk(g, d, u);
    }
  }
}
