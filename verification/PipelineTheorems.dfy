/** When a threaded run can return while its executor is not idle, and when with a job unfinished: two conditions on
    the graph. And what every run keeps and leaves behind when it does not. */
module PipelineTheorems {
  import opened Jobs
  import opened Graphs
  import Kahn
  import opened Scheduler
  import opened SchedulerInvariant
  import opened SchedulerTheorems
  import SR = SchedulerRuns
  import D = Deferred
  import DR = DeferredRuns
  import DT = DeferredTheorems
  import opened PipelineRuns
  import opened PipelineSafety
  import opened PipelineStages
  import opened PipelineEdges
  import opened PipelineHolds

  // ---- Histories of runs that return early ----

  /** Walks can be joined. */
  lemma ReachesOn(g: Graph, a: nat, b: nat, c: nat)
    requires Graphs.Reaches(g, a, b) && Graphs.Reaches(g, b, c)
    ensures Graphs.Reaches(g, a, c)
  {
    var p :| IsPath(g, p) && p[0] == a && p[|p| - 1] == b;
    var q :| IsPath(g, q) && q[0] == b && q[|q| - 1] == c;
    var joined := p + q[1..];
    forall i | 0 <= i < |joined| - 1 ensures joined[i + 1] in g[joined[i]] {
      if i >= |p| - 1 { assert joined[i] == q[i - |p| + 1] && joined[i + 1] == q[i - |p| + 2]; }
    }
    assert IsPath(g, joined) && joined[0] == a && joined[|joined| - 1] == c;
  }

  /** Between two different nodes of an acyclic graph at most one direction is walked. */
  lemma OneWay(g: Graph, a: nat, b: nat)
    requires WellFormed(g) && Acyclic(g) && Graphs.Reaches(g, a, b) && a != b
    ensures !Graphs.Reaches(g, b, a)
  {
    hide Graphs.Reaches;
    var u := ReachesThrough(g, a, b);
    if Graphs.Reaches(g, b, a) {
      ReachesOn(g, b, a, u);
      NoWayBack(g, b, u);
    }
  }

  lemma StartableAbove(p: Plan, a: nat, b: nat)
    requires Startable(p, b) && Graphs.Reaches(p.g, a, b)
    ensures Startable(p, a)
  {
    hide Graphs.Reaches, OnDemandSource;
    forall o: nat | Graphs.Reaches(p.g, o, a) ensures !OnDemandSource(p, o) {
      ReachesOn(p.g, o, a, b);
    }
  }

  /** Everything that can be run before `a`, and `a` itself, can be run before a job below `a`. */
  lemma BeforeGrows(p: Plan, a: nat, b: nat)
    requires ValidPlan(p) && Acyclic(p.g) && a < |p.g| && a != b && Graphs.Reaches(p.g, a, b) && Startable(p, b)
    ensures Before(p, a) + {a} <= Before(p, b)
  {
    hide Graphs.Reaches, Startable;
    StartableAbove(p, a, b);
    OneWay(p.g, a, b);
    forall v | v in Before(p, a) ensures v in Before(p, b) {
      if Graphs.Reaches(p.g, b, v) { ReachesOn(p.g, a, b, v); }
    }
  }

  /** A step of the calling thread that leaves agents and slots alone. */
  lemma WaitGo(p: Plan, w: World, done: set<nat>, u: nat, pc: Pc, cut: nat, x: D.Slot, inFlight: int, act: Act, y: World)
    requires At(p, w, done, u, pc, cut, x, inFlight) && Steps(p, w, act, y)
    requires y.s == w.s && y.d == w.d && y.unfinished == w.unfinished
    ensures At(p, y, done, u, pc, cut, x, inFlight)
  {
    hide Occurs, Stage, Steps, Slotted;
    OccursNext(p, w, act, y);
  }

  lemma AtSized(p: Plan, w: World, done: set<nat>, u: nat, pc: Pc, cut: nat, x: D.Slot, inFlight: int)
    requires At(p, w, done, u, pc, cut, x, inFlight)
    ensures Sized(p, w) && w.s.pcs[|p.g|] == Ended && Threaded(w) && w.d.inFlight == inFlight && !w.unfinished
    ensures w.s.drain.NotDraining?
  {
    hide Apart, OnDemandSource;
  }

  lemma FirstReturns(p: Plan, w: World, d: nat) returns (y: World)
    requires HeldBack(p, w, d) && w.wait.Submitting?
    ensures HeldBack(p, y, d) && y.wait.ZeroWait?
  {
    hide ExecutorIdle, Occurs, Stage, Before;
    HeldIdle(p, w, d);
    AtSized(p, w, Before(p, d), d, Waiting, 0, KeptSlot(), 1);
    y := w.(wait := ZeroWait, first := PipelineRuns.Submitted(p, w.s));
    WaitGo(p, w, Before(p, d), d, Waiting, 0, KeptSlot(), 1, FirstIdle, y);
  }

  lemma ZeroReached(p: Plan, w: World, done: set<nat>) returns (y: World)
    requires Between(p, w, done) && w.wait.ZeroWait?
    ensures Between(p, y, done) && y.wait.SecondWait?
  {
    hide At;
    AtSized(p, w, done, |p.g|, Ended, 0, D.Fresh(), 0);
    y := w.(wait := SecondWait, settled := StartedJobs(w.d));
    WaitGo(p, w, done, |p.g|, Ended, 0, D.Fresh(), 0, ZeroSeen, y);
  }

  lemma SecondReturns(p: Plan, w: World, d: nat) returns (y: World)
    requires HeldBack(p, w, d) && w.wait.SecondWait?
    ensures HeldBack(p, y, d) && y.wait.Recheck?
  {
    hide ExecutorIdle, Occurs, Stage, Before;
    HeldIdle(p, w, d);
    AtSized(p, w, Before(p, d), d, Waiting, 0, KeptSlot(), 1);
    y := w.(wait := Recheck);
    WaitGo(p, w, Before(p, d), d, Waiting, 0, KeptSlot(), 1, SecondIdle, y);
  }

  /** A threaded run up to the re-check that follows the second waitAll(), with only `second` left, awaiting its
      Completion. */
  lemma UpToRecheck(p: Plan, first: nat, second: nat) returns (w: World)
    requires ValidPlan(p) && Acyclic(p.g) && first < |p.g| && second < |p.g| && p.deferred[first] && p.deferred[second]
    requires first != second && Graphs.Reaches(p.g, first, second) && Startable(p, second)
    ensures HeldBack(p, w, second) && w.wait.Recheck?
  {
    hide At, HeldBack, Startable, Graphs.Reaches, Before, Occurs;
    StartableAbove(p, first, second);
    w := RootsSubmitted(p);
    NothingBefore(p, first);
    w := HoldBack(p, w, {}, first);
    w := FirstReturns(p, w, first);
    w := FinishHeld(p, w, first);
    w := ZeroReached(p, w, Before(p, first) + {first});
    BeforeGrows(p, first, second);
    w := HoldBack(p, w, Before(p, first) + {first}, second);
    w := SecondReturns(p, w, second);
  }

  lemma NothingBefore(p: Plan, d: nat)
    ensures {} <= Before(p, d)
  {
  }

  lemma FinishHeld(p: Plan, w: World, d: nat) returns (y: World)
    requires HeldBack(p, w, d)
    ensures SameWait(w, y) && Between(p, y, Before(p, d) + {d})
  {
    hide Occurs, Slotted, Before, Apart;
    y := FinishDeferred(p, w, Before(p, d), d);
    y := CloseDeferred(p, y, Before(p, d), d);
  }

  lemma HeldOut(p: Plan, w: World, d: nat)
    requires HeldBack(p, w, d)
    ensures d !in Before(p, d)
  {
    hide Before, Occurs, Apart;
  }

  /** The second job's continuation has counted itself out and not yet returned to the executor. */
  lemma EarlyWitness(p: Plan, first: nat, second: nat) returns (w: World)
    requires ValidPlan(p) && Acyclic(p.g) && first < |p.g| && second < |p.g| && p.deferred[first] && p.deferred[second]
    requires first != second && Graphs.Reaches(p.g, first, second) && Startable(p, second)
    ensures Occurs(p, w) && w.early
  {
    hide Occurs, Stage, Startable, Graphs.Reaches, Before, Acyclic, JobsDone;
    var y := UpToRecheck(p, first, second);
    HeldOut(p, y, second);
    y := FinishDeferred(p, y, Before(p, second), second);
    AtSized(p, y, Before(p, second), second, Ended, |p.g[second]|, ReturningSlot(), 0);
    assert y.d.slots[second].leaving == 1;
    w := Returned(p, y);
    OccursNext(p, y, Return, w);
  }

  /** Once `d` has finished as well, some job below it is queued. */
  lemma {:induction false} QueuedBelow(p: Plan, w: World, d: nat, order: seq<nat>, i: nat) returns (x: nat)
    requires Between(p, w, Before(p, d) + {d}) && Kahn.IsTopological(p.g, order) && i < |order|
    requires order[i] != d && Graphs.Reaches(p.g, d, order[i]) && Startable(p, order[i])
    ensures x < |p.g| && x < |w.s.pcs| && w.s.pcs[x] == Queued && x !in Before(p, d) + {d}
  {
    hide Between, Startable, OnDemandSource, Graphs.Reaches;
    BetweenValid(p, w, Before(p, d) + {d});
    var v := order[i];
    SelfStartable(p, v);
    if u: nat :| IsEdge(p.g, u, v) && u !in Before(p, d) + {d} {
      StartableSource(p, u, v);
      Kahn.InOrder(|p.g|, order, u);
      var j :| 0 <= j < |order| && order[j] == u;
      EdgeForward(p.g, order, j, i);
      x := QueuedBelow(p, w, d, order, j);
    } else {
      QueuedWhenReady(p, w, Before(p, d) + {d}, v);
      x := v;
    }
  }

  lemma EdgeForward(g: Graph, order: seq<nat>, j: nat, i: nat)
    requires WellFormed(g) && Kahn.IsTopological(g, order) && i < |order| && j < |order| && IsEdge(g, order[j], order[i])
    ensures j < i
  {
  }

  lemma QueuedNotDone(p: Plan, w: World, done: set<nat>, x: nat)
    requires Between(p, w, done) && x < |p.g| && x !in done && w.s.pcs[x] == Queued
    ensures !JobsDone(p, w)
  {
    hide Occurs, Stage;
    AtSized(p, w, done, |p.g|, Ended, 0, D.Fresh(), 0);
    assert w.d.slots[x] == D.Fresh();
  }

  lemma NoLoop(g: Graph, d: nat, v: nat)
    requires WellFormed(g) && Acyclic(g) && IsEdge(g, d, v)
    ensures v != d
  {
    hide Graphs.Reaches, IsPath;
    if v == d {
      SelfReaches(g, d);
      var cycle := ClosedWalk(g, d, d);
    }
  }

  lemma SuccessorQueued(p: Plan, w: World, d: nat, v: nat) returns (x: nat)
    requires Between(p, w, Before(p, d) + {d}) && Acyclic(p.g) && d < |p.g|
    requires IsEdge(p.g, d, v) && v < |p.g| && Startable(p, v)
    ensures x < |p.g| && x < |w.s.pcs| && w.s.pcs[x] == Queued && x !in Before(p, d) + {d}
  {
    hide Between, Startable, Graphs.Reaches, Before, Kahn.IsTopological, Kahn.Order;
    BetweenValid(p, w, Before(p, d) + {d});
    var order := TopologicalOrder(p.g);
    SelfReaches(p.g, d);
    ReachesNext(p.g, d, d, v);
    NoLoop(p.g, d, v);
    var i := Position(p.g, order, v);
    x := QueuedBelow(p, w, d, order, i);
  }

  lemma TopologicalOrder(g: Graph) returns (order: seq<nat>)
    requires WellFormed(g) && Acyclic(g)
    ensures Kahn.IsTopological(g, order)
  {
    hide Kahn.Order, Kahn.IsTopological;
    Kahn.OrderTheorem(g);
    order := Kahn.Order(g);
  }

  lemma Position(g: Graph, order: seq<nat>, v: nat) returns (i: nat)
    requires Kahn.IsTopological(g, order) && v < |g|
    ensures i < |order| && order[i] == v
  {
    Kahn.InOrder(|g|, order, v);
    i :| 0 <= i < |order| && order[i] == v;
  }

  /** The second job's successor is still on the executor. */
  lemma UnfinishedWitness(p: Plan, first: nat, second: nat, v: nat) returns (w: World)
    requires ValidPlan(p) && Acyclic(p.g) && first < |p.g| && second < |p.g| && p.deferred[first] && p.deferred[second]
    requires first != second && Graphs.Reaches(p.g, first, second)
    requires IsEdge(p.g, second, v) && v < |p.g| && Startable(p, v)
    ensures Occurs(p, w) && w.unfinished
  {
    hide At, HeldBack, Startable, Graphs.Reaches, IsEdge, Before, Occurs, Acyclic;
    StartableSource(p, second, v);
    w := UpToRecheck(p, first, second);
    w := FinishHeld(p, w, second);
    w := ReturnsUnfinished(p, w, second, v);
  }

  lemma ReturnsUnfinished(p: Plan, w: World, d: nat, v: nat) returns (y: World)
    requires Between(p, w, Before(p, d) + {d}) && w.wait.Recheck? && Acyclic(p.g) && d < |p.g|
    requires IsEdge(p.g, d, v) && v < |p.g| && Startable(p, v)
    ensures Occurs(p, y) && y.unfinished
  {
    hide Occurs, Stage, Startable, IsEdge, Acyclic, Before, JobsDone, Slotted;
    var x := SuccessorQueued(p, w, d, v);
    QueuedNotDone(p, w, Before(p, d) + {d}, x);
    AtSized(p, w, Before(p, d) + {d}, |p.g|, Ended, 0, D.Fresh(), 0);
    y := Returned(p, w);
    OccursNext(p, w, Return, y);
  }

  // ---- When a run can return early ----

  /** Some threaded run can return while its executor is not idle exactly when a deferred job that can be started lies
      below another deferred job. */
  lemma EarlyReturnIffChained(p: Plan)
    requires ValidPlan(p) && Acyclic(p.g)
    ensures (exists w :: Occurs(p, w) && w.early) <==> Chained(p)
  {
    hide Occurs, Startable, IsPath, Acyclic;
    if w :| Occurs(p, w) && w.early { OnlyWhen(p, w); }
    if Chained(p) {
      var u: nat :| u < |p.g| && u < |p.deferred| && p.deferred[u] && BelowDeferred(p, u) && Startable(p, u);
      var a := Ancestor(p, u);
      var w := EarlyWitness(p, a, u);
    }
  }

  /** Some threaded run can return with a job unfinished exactly when a deferred job below another deferred job has a
      successor that can be started. */
  lemma UnfinishedReturnIffRisky(p: Plan)
    requires ValidPlan(p) && Acyclic(p.g)
    ensures (exists w :: Occurs(p, w) && w.unfinished) <==> Risky(p)
  {
    hide Occurs, Startable, IsPath, Acyclic;
    if w :| Occurs(p, w) && w.unfinished { OnlyWhen(p, w); }
    if Risky(p) {
      var u: nat, v: nat :|
        u < |p.g| && u < |p.deferred| && p.deferred[u] && BelowDeferred(p, u) && IsEdge(p.g, u, v) && Startable(p, v);
      var a := Ancestor(p, u);
      TargetInGraph(p, u, v);
      var w := UnfinishedWitness(p, a, u, v);
    }
  }

  lemma TargetInGraph(p: Plan, u: nat, v: nat)
    requires ValidPlan(p) && IsEdge(p.g, u, v)
    ensures v < |p.g|
  {
  }

  lemma Ancestor(p: Plan, u: nat) returns (a: nat)
    requires ValidPlan(p) && Acyclic(p.g) && BelowDeferred(p, u)
    ensures a < |p.g| && p.deferred[a] && a != u && Graphs.Reaches(p.g, a, u)
  {
    var path :| IsPath(p.g, path) && |path| > 1 && path[|path| - 1] == u && path[0] < |p.deferred| && p.deferred[path[0]];
    a := path[0];
  }

  /** No inline run returns early, nor any run of a graph without the condition. */
  lemma OnlyWhen(p: Plan, w: World)
    requires ValidPlan(p) && Occurs(p, w)
    ensures w.early ==> Chained(p) && w.threaded
    ensures w.unfinished ==> Risky(p) && w.threaded
  {
    hide Occurs, Risky, Chained, DR.Inv, Inv, Unused;
    OccursOk(p, w);
  }

  // ---- Until a run leaves a job unfinished, the parts keep to their own protocols ----

  /** Some history of the slots' own protocol leads to `d`. */
  ghost predicate InProtocol(n: nat, d: DR.State) {
    exists states :: DT.IsHistory(n, states) && states[|states| - 1] == d
  }

  ghost predicate Refines(p: Plan, w: World) {
    InProtocol(|p.g|, w.d) && (Active(w) ==> Reachable(p, w.s))
  }

  lemma ProtocolNext(n: nat, d: DR.State, a: DR.Action)
    requires InProtocol(n, d) && DR.Enabled(d, a)
    ensures InProtocol(n, DR.Step(d, a))
  {
    hide DR.Enabled, DR.Step, DR.Init;
    var states :| DT.IsHistory(n, states) && states[|states| - 1] == d;
    var longer := states + [DR.Step(d, a)];
    forall k | 0 <= k < |longer| - 1 ensures DT.Steps(longer[k], longer[k + 1]) {
      if k < |states| - 1 { assert DT.Steps(states[k], states[k + 1]); }
    }
    assert DT.IsHistory(n, longer);
  }

  lemma RunNext(p: Plan, s: State, step: SR.Step, t: State)
    requires Reachable(p, s) && Shape(p, s) && SR.Enabled(p, s, step) && SR.Steps(p, s, step, t)
    ensures Reachable(p, t)
  {
    hide Shape, SR.Enabled, SR.Steps, Scheduler.Init;
    var states, steps :| SR.IsRun(p, states, steps) && states[|states| - 1] == s;
    assert SR.IsRun(p, states + [t], steps + [step]);
  }

  lemma ProtocolInit(n: nat)
    ensures InProtocol(n, DR.Init(n))
  {
    assert DT.IsHistory(n, [DR.Init(n)]);
  }

  lemma RunInit(p: Plan)
    requires ValidPlan(p)
    ensures Reachable(p, Scheduler.Init(p))
  {
    assert SR.IsRun(p, [Scheduler.Init(p)], []);
  }

  /** Once a run has left a job unfinished, that stays on record. */
  lemma UnfinishedStays(p: Plan, w: World, act: Act, x: World)
    requires Steps(p, w, act, x)
    ensures w.unfinished ==> x.unfinished
  {
    hide DR.Enabled, DR.Step, SR.Enabled, SR.Steps, ExecutorIdle, JobsDone, Submitted, StartedJobs;
  }

  /** `act` ends the active run, and no run has left a job unfinished. */
  ghost predicate Ends(p: Plan, w: World, act: Act, x: World) {
    Active(w) && Steps(p, w, act, x) && x.d.phase.Ending? && !x.unfinished
  }

  /** Then the run ends as the slots' protocol says. */
  lemma RunEnds(p: Plan, w: World, act: Act, x: World)
    requires WorldOk(p, w) && Sized(p, w) && Ends(p, w, act, x)
    ensures !w.unfinished && DR.Enabled(w.d, DR.EndRun) && x.d == DR.Step(w.d, DR.EndRun)
    ensures JobsDone(p, w) && !Acting(w, |p.g|)
  {
    hide DR.Inv, Inv, OnDemandIdle, LinksOk, Risky, Chained, Unused, DR.Idle, D.Can, D.After, StartedJobs;
    UnfinishedStays(p, w, act, x);
    if !w.d.inline { NoneAwaited(w.d); }
    if act.FirstIdle? { NoneInFlight(p, w.d); }
  }

  lemma StepRefines(p: Plan, w: World, act: Act, x: World)
    requires WorldOk(p, w) && Refines(p, w) && Steps(p, w, act, x) && !x.unfinished
    ensures Refines(p, x)
  {
    hide WorldOk, InProtocol, Reachable, DR.Idle, D.Can, D.After, JobsDone, SR.Enabled, SR.Steps, Shape, Scheduler.Init;
    match act
    case OnSlot(i, m) => ProtocolNext(|p.g|, w.d, DR.OnSlot(i, m));
    case Await(i) =>
      ProtocolNext(|p.g|, w.d, DR.OnSlot(i, D.Look));
      AwaitRuns(p, w, i, x);
    case Agent(step) => RunNext(p, w.s, step, x.s);
    case BeginRun => ProtocolNext(|p.g|, w.d, DR.BeginRun);
    case StartRun(inline) =>
      ProtocolNext(|p.g|, w.d, DR.StartRun(inline));
      WorldValid(p, w);
      RunInit(p);
    case FirstIdle => if !SomeDeferred(p) { EndRefines(p, w, act, x); }
    case Return => EndRefines(p, w, act, x);
    case EndInline => ProtocolNext(|p.g|, w.d, DR.EndRun);
    case ReleaseNext => ProtocolNext(|p.g|, w.d, DR.ReleaseNext);
    case _ =>
  }

  lemma WorldValid(p: Plan, w: World)
    requires WorldOk(p, w)
    ensures ValidPlan(p)
  {
  }

  lemma EndRefines(p: Plan, w: World, act: Act, x: World)
    requires WorldOk(p, w) && Sized(p, w) && InProtocol(|p.g|, w.d) && Ends(p, w, act, x)
    ensures InProtocol(|p.g|, x.d)
  {
    hide WorldOk, Ends, InProtocol, DR.Enabled, DR.Step, JobsDone, Sized;
    RunEnds(p, w, act, x);
    ProtocolNext(|p.g|, w.d, DR.EndRun);
  }

  lemma AwaitRuns(p: Plan, w: World, i: nat, x: World)
    requires WorldOk(p, w) && Reachable(p, w.s) && Steps(p, w, Await(i), x) && !w.unfinished
    ensures Reachable(p, x.s)
  {
    hide DR.Inv, Inv, OnDemandIdle, LinksOk, WaitOk, Risky, Chained, Unused, Shape, SR.Enabled, SR.Steps, Reachable, D.Can, D.After;
    InvShape(p, w.s);
    LooksDeferred(p, w.d, i);
    AwaitIsAgent(p, w.s, i);
    RunNext(p, w.s, SR.AgentStep(i, Choice(Ok, true, true)), x.s);
  }

  lemma {:induction false} HistoryRefines(p: Plan, worlds: seq<World>, k: nat)
    requires ValidPlan(p) && IsHistory(p, worlds) && k < |worlds| && !worlds[k].unfinished
    ensures Refines(p, worlds[k])
  {
    hide WorldOk, Steps, InProtocol, Reachable;
    if k == 0 {
      ProtocolInit(|p.g|);
    } else {
      assert Next(p, worlds[k - 1], worlds[k]);
      var act :| Steps(p, worlds[k - 1], act, worlds[k]);
      UnfinishedStays(p, worlds[k - 1], act, worlds[k]);
      HistoryRefines(p, worlds, k - 1);
      HistoryOk(p, worlds, k - 1);
      StepRefines(p, worlds[k - 1], act, worlds[k]);
    }
  }

  /** Until some run leaves a job unfinished, the slots have gone through a history of their own protocol, so that all
      the theorems on it apply, and an active run's scheduler through a run of its own. */
  lemma PartsKeepToProtocol(p: Plan, w: World)
    requires ValidPlan(p) && Occurs(p, w) && !w.unfinished
    ensures InProtocol(|p.g|, w.d)
    ensures Active(w) ==> Reachable(p, w.s)
  {
    hide Next, InProtocol, Reachable;
    var worlds :| IsHistory(p, worlds) && worlds[|worlds| - 1] == w;
    HistoryRefines(p, worlds, |worlds| - 1);
  }

  lemma ProtocolHistory(n: nat, d: DR.State) returns (states: seq<DR.State>)
    requires InProtocol(n, d)
    ensures |states| > 0 && DT.IsHistory(n, states) && states[|states| - 1] == d
  {
    hide DR.Init;
    states :| DT.IsHistory(n, states) && states[|states| - 1] == d;
  }

  // ---- What that gives ----

  /** Until some run leaves a job unfinished, the reset of a slot finds nobody else using it. */
  lemma ResetIsSafe(p: Plan, w: World, i: nat, x: World)
    requires ValidPlan(p) && Occurs(p, w) && !w.unfinished && Steps(p, w, OnSlot(i, D.Reset), x)
    ensures var y := w.d.slots[i];
      && (y.handle.NoHandle? || y.handle.Gone?)
      && y.callback.Unregistered? && y.timer.Off? && y.finish.NotFinished?
  {
    hide Occurs, DT.IsHistory, D.Can, D.After, InProtocol;
    PartsKeepToProtocol(p, w);
    var states := ProtocolHistory(|p.g|, w.d);
    DT.ResetIsSafe(|p.g|, states, |states| - 1, i);
  }

  /** Until some run leaves a job unfinished, the ledger counts the orphans. */
  lemma LedgerCounts(p: Plan, w: World)
    requires ValidPlan(p) && Occurs(p, w) && !w.unfinished
    ensures w.d.orphans >= 0
    ensures w.d.orphans == |DT.Orphans(w.d.slots)| - (if w.d.ledger.None? then 0 else 1)
  {
    hide Occurs, DT.IsHistory, DT.Orphans, InProtocol;
    PartsKeepToProtocol(p, w);
    var states := ProtocolHistory(|p.g|, w.d);
    DT.LedgerCounts(|p.g|, states, |states| - 1);
  }

  /** A run that ends, inline or threaded, and leaves no job unfinished, has finished every deferred job it started,
      once, with nothing in flight; nothing of its scheduler can move any more, and every job that it could start is
      terminal. */
  lemma EndedRunIsComplete(p: Plan, w: World, act: Act, x: World)
    requires ValidPlan(p) && Acyclic(p.g) && Occurs(p, w) && Ends(p, w, act, x)
    ensures w.d.inFlight == 0 && forall i: nat :: i < |p.g| && D.Started(w.d.slots[i]) ==>
      w.d.slots[i].finish.Finished? && w.d.slots[i].finishes == 1
    ensures Shape(p, w.s) && Quiescent(p, w.s)
    ensures forall v: nat :: v < |p.g| && Startable(p, v) ==> Terminal(w.s.nodes[v].status)
  {
    hide Occurs, Steps, WorldOk, DR.Enabled, Reachable, JobsDone, InProtocol, Linked, Startable, Terminal, Quiescent, Shape;
    OccursOk(p, w);
    UnfinishedStays(p, w, act, x);
    PartsKeepToProtocol(p, w);
    WorldSized(p, w);
    RunEnds(p, w, act, x);
    EndedSlots(p, w);
    NoneActing(p, w);
    AtRest(p, w);
    StartableEnds(p, w);
  }

  lemma EndedSlots(p: Plan, w: World)
    requires InProtocol(|p.g|, w.d) && DR.Enabled(w.d, DR.EndRun)
    ensures w.d.inFlight == 0 && forall i {:trigger w.d.slots[i]} :: 0 <= i < |w.d.slots| && D.Started(w.d.slots[i]) ==>
      w.d.slots[i].finish.Finished? && w.d.slots[i].finishes == 1
  {
    hide DT.IsHistory, D.Started, DR.Idle, InProtocol;
    var states := ProtocolHistory(|p.g|, w.d);
    forall i {:trigger w.d.slots[i]} | 0 <= i < |w.d.slots| && D.Started(w.d.slots[i])
      ensures w.d.slots[i].finish.Finished? && w.d.slots[i].finishes == 1
    {
      DT.EndedRunIsComplete(|p.g|, states, |states| - 1, i);
    }
  }

  lemma NoneActing(p: Plan, w: World)
    requires LinksOk(p, w) && JobsDone(p, w)
    requires forall i {:trigger w.d.slots[i]} :: 0 <= i < |w.d.slots| && D.Started(w.d.slots[i]) ==> w.d.slots[i].finish.Finished?
    ensures forall a: nat :: a < |p.g| ==> !Acting(w, a)
  {
    hide DR.Idle;
    forall a: nat | a < |p.g| ensures !Acting(w, a) {
      assert Linked(p.deferred[a], Draining(w, a), w.s.pcs[a], w.d.slots[a]);
    }
  }

  lemma AtRest(p: Plan, w: World)
    requires LinksOk(p, w) && !Acting(w, |p.g|) && Reachable(p, w.s)
    requires forall a: nat :: a < |p.g| ==> !Acting(w, a)
    ensures Shape(p, w.s) && Quiescent(p, w.s)
  {
    hide Linked, Reachable, Inv, Shape;
    ReachableInv(p, w.s);
    InvShape(p, w.s);
    DrainerActs(w);
    forall step: SR.Step ensures !SR.Enabled(p, w.s, step) {
      if step.AgentStep? && step.a < |p.g| { assert !Acting(w, step.a); }
    }
  }

  lemma StartableEnds(p: Plan, w: World)
    requires Reachable(p, w.s) && Acyclic(p.g) && Shape(p, w.s) && Quiescent(p, w.s)
    ensures forall v: nat :: v < |p.g| && Startable(p, v) ==> Terminal(w.s.nodes[v].status)
  {
    hide Reachable, OnDemandSource, Graphs.Reaches, Terminal, Acyclic, Quiescent;
    QuiescentRunIsComplete(p, w.s);
  }
}
