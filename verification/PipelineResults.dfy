/** What a run reports of its jobs: statuses and outcomes, and for a deferred job that its outcome is what its own
    protocol decided. */
module PipelineResults {
  import opened Jobs
  import opened Graphs
  import opened Scheduler
  import opened SchedulerInvariant
  import opened SchedulerSteps
  import opened SchedulerTheorems
  import SR = SchedulerRuns
  import D = Deferred
  import DR = DeferredRuns
  import opened PipelineRuns
  import opened PipelineAgents
  import opened PipelineSafety

  // ---- The scheduler alone ----

  /** A status says what happened to the job: nothing ran before Running; an error status is that of the body's result,
      or Failed for a job the executor refused; and once the result is stored the status shows it. */
  lemma StatusMeans(p: Plan, s: State, v: nat)
    requires Reachable(p, s) && v < |p.g|
    ensures v < |s.nodes| && v < |s.pcs|
    ensures var nd := s.nodes[v];
      && (nd.status in {Pending, Ready, Skipped} ==> nd.entered == 0 && nd.outcome.None?)
      && (nd.status in {Running, Awaiting} ==> nd.entered == 1 && (nd.outcome.Some? ==> s.pcs[v].Storing?))
      && (nd.status in {Done, TimedOut, WasCancelled} ==> nd.outcome.Some? && nd.status == StatusOf(nd.outcome.value))
      && (nd.status == Failed ==>
            if nd.outcome.Some? then StatusOf(nd.outcome.value) == Failed else nd.entered == 0)
      && (nd.outcome.Some? && !s.pcs[v].Storing? ==> nd.status == StatusOf(nd.outcome.value))
  {
    hide OpenFrom, Open, InDegree, NoCut, Roots, RootsFrom, IsRoot, Reachable;
    hide EdgesOk, HoldsOk, OwnersOk, SettledOk, WorklistOk, FatalOk;
    ReachableInv(p, s);
    LocalRecord(p, s, v);
  }

  lemma StepOnDemand(p: Plan, s: State, step: SR.Step, t: State)
    requires Inv(p, s) && SR.Enabled(p, s, step) && SR.Steps(p, s, step, t) && OnDemandIdle(p, s)
    ensures OnDemandIdle(p, t)
  {
    hide Inv, OnDemandIdle, SR.Steps, PcsMoved, Submits;
    InvShape(p, s);
    match step
    case DrainStep => DrainOnDemand(p, s, t);
    case AgentStep(a, c) =>
      HeldAt(p, s, a);
      PcsMove(p, s, a, c, t);
      AgentOnDemand(p, s, a, c, t);
  }

  lemma HeldAt(p: Plan, s: State, a: nat)
    requires Inv(p, s) && a <= |p.g|
    ensures Shape(p, s) && HeldOk(p, s, a, s.pcs[a])
  {
    hide LocalsOk, EdgesOk, OwnersOk, SettledOk, WorklistOk, FatalOk, HeldOk, Roots, IsRoot, InDegree;
  }

  lemma DrainOnDemand(p: Plan, s: State, t: State)
    requires Shape(p, s) && SR.Enabled(p, s, SR.DrainStep) && SR.Steps(p, s, SR.DrainStep, t) && OnDemandIdle(p, s)
    ensures OnDemandIdle(p, t)
  {
    hide OnDemandSource, InDegree, Roots, IsCut;
    assert t.pcs == s.pcs;
  }

  lemma {:induction false} RunOnDemand(p: Plan, states: seq<State>, steps: seq<SR.Step>, i: nat)
    requires ValidPlan(p) && SR.IsRun(p, states, steps) && i < |states|
    ensures OnDemandIdle(p, states[i])
  {
    hide Inv, OnDemandIdle, SR.Steps, Init;
    if i == 0 {
      StartOnDemand(p);
    } else {
      RunOnDemand(p, states, steps, i - 1);
      SR.RunInv(p, states, steps, i - 1);
      StepOnDemand(p, states[i - 1], steps[i - 1], states[i]);
    }
  }

  lemma StartOnDemand(p: Plan)
    ensures OnDemandIdle(p, Init(p))
  {
    hide InDegree, Roots, NoCut, OnDemandSource;
  }

  /** A source that is on demand is never handed to the executor, and nothing below it is ever entered. */
  lemma OnDemandNeverRuns(p: Plan, s: State, o: nat, v: nat)
    requires Reachable(p, s) && OnDemandSource(p, o) && Graphs.Reaches(p.g, o, v)
    ensures o < |p.g| && o < |s.pcs| && s.pcs[o] == Idle
    ensures v < |s.nodes| && s.nodes[v].entered == 0
  {
    hide Inv, OnDemandIdle, InDegree, Reachable, OnDemandSource, IsCut, Roots;
    ReachableOnDemand(p, s);
    ReachableInv(p, s);
    InvShape(p, s);
    SourceIdle(p, s, o);
    NotEntered(p, s, o);
    var path :| IsPath(p.g, path) && path[0] == o && path[|path| - 1] == v;
    EndInGraph(p.g, path);
    BelowNotEntered(p, s, path);
  }

  lemma ReachableOnDemand(p: Plan, s: State)
    requires Reachable(p, s)
    ensures OnDemandIdle(p, s)
  {
    hide OnDemandIdle, SR.Steps, Init, SR.Enabled;
    var states, steps :| SR.IsRun(p, states, steps) && states[|states| - 1] == s;
    RunOnDemand(p, states, steps, |states| - 1);
  }

  lemma BelowNotEntered(p: Plan, s: State, path: seq<nat>)
    requires Reachable(p, s) && Shape(p, s) && IsPath(p.g, path) && path != [] && path[0] < |p.g| && path[|path| - 1] < |p.g|
    requires s.nodes[path[0]].entered == 0
    ensures s.nodes[path[|path| - 1]].entered == 0
  {
    hide Reachable, IsPath, Shape, IsCut, InDegree, Roots;
    ShapeSizes(p, s);
    if |path| > 1 { NothingRunsBelow(p, s, path); }
    EnteredOnceAfterPredecessors(p, s);
  }

  lemma ShapeSizes(p: Plan, s: State)
    requires Shape(p, s)
    ensures |s.nodes| == |p.g| && |s.pcs| == |p.g| + 1 && |p.optional| == |p.g|
  {
  }

  lemma SourceIdle(p: Plan, s: State, o: nat)
    requires OnDemandIdle(p, s) && OnDemandSource(p, o) && |s.pcs| == |p.g| + 1
    ensures s.pcs[o] == Idle
  {
    hide InDegree;
  }

  lemma EndInGraph(g: Graph, path: seq<nat>)
    requires IsPath(g, path) && path != []
    ensures path[|path| - 1] < |g|
  {
  }

  // ---- Deferred jobs ----

  /** The slot has come to the result `r` that its agent reports. */
  predicate Reports(x: D.Slot, r: Result) {
    (x.body.Refused? && r == Err(x.body.error))
    || (x.body.Left? && r == x.result && (D.At(x, D.AtFinish) || D.At(x, D.AtUncount) || x.finish.Finished?))
  }

  ghost predicate ReportsOk(p: Plan, w: World)
    requires Sized(p, w)
  {
    forall v {:trigger w.s.nodes[v]} :: 0 <= v < |p.g| && v < |w.s.nodes| && p.deferred[v] ==>
      && (w.s.nodes[v].outcome.Some? ==> Reports(w.d.slots[v], w.s.nodes[v].outcome.value))
      && (w.d.slots[v].body.Waiting? || w.s.nodes[v].entered > 0)
  }

  lemma BodyReports(inline: bool, free: bool, x: D.Slot, m: D.Move, r: Result)
    requires D.Can(inline, free, x, m) && D.IsBodyMove(m) && Reports(x, r)
    ensures Reports(D.BodyMove(x, m), r)
  {
  }

  lemma HandleReports(inline: bool, free: bool, x: D.Slot, m: D.Move, r: Result)
    requires D.SlotOk(x) && D.Can(inline, free, x, m) && D.IsHandleMove(m) && Reports(x, r)
    ensures Reports(D.HandleMove(x, m), r)
  {
    hide D.StopOk, D.OutcomeOk, D.DeliveryOk, D.ResultOk, D.OrphanOk;
  }

  lemma StopReports(inline: bool, free: bool, x: D.Slot, m: D.Move, r: Result)
    requires D.SlotOk(x) && D.Can(inline, free, x, m) && D.IsStopMove(m) && Reports(x, r)
    ensures Reports(D.StopMove(x, m), r)
  {
    hide D.StopOk, D.OutcomeOk, D.DeliveryOk, D.ResultOk, D.OrphanOk;
  }

  lemma DeliveryReports(inline: bool, free: bool, x: D.Slot, m: D.Move, r: Result)
    requires D.SlotOk(x) && D.Can(inline, free, x, m) && D.IsDeliveryMove(m) && Reports(x, r)
    ensures Reports(D.DeliveryMove(x, m), r)
  {
    hide D.SlotOk, D.Can, D.DeliveryMove;
    NothingDue(inline, free, x, m, r);
    DeliveryFrame(x, m);
    D.DeliverySame(inline, free, x, m);
  }

  lemma NothingDue(inline: bool, free: bool, x: D.Slot, m: D.Move, r: Result)
    requires D.SlotOk(x) && D.Can(inline, free, x, m) && D.IsDeliveryMove(m) && Reports(x, r)
    ensures !m.Dispatch? && !m.List?
  {
    hide D.StopOk, D.OutcomeOk, D.DeliveryOk, D.ResultOk, D.OrphanOk, D.EarlyOk;
  }

  lemma FinishReports(inline: bool, free: bool, x: D.Slot, m: D.Move, r: Result)
    requires D.SlotOk(x) && D.Can(inline, free, x, m) && Reports(x, r)
    requires !D.IsBodyMove(m) && !D.IsHandleMove(m) && !D.IsStopMove(m) && !D.IsDeliveryMove(m)
    ensures Reports(D.FinishMove(x, m), r)
  {
    hide D.StopOk, D.OutcomeOk, D.DeliveryOk, D.ResultOk, D.OrphanOk, D.EarlyOk;
  }

  lemma MoveReports(inline: bool, free: bool, x: D.Slot, m: D.Move, r: Result)
    requires D.SlotOk(x) && D.Can(inline, free, x, m) && Reports(x, r)
    ensures Reports(D.After(inline, free, x, m), r)
  {
    hide D.SlotOk, D.Can, D.BodyMove, D.HandleMove, D.StopMove, D.DeliveryMove, D.FinishMove, Reports;
    if D.IsBodyMove(m) { BodyReports(inline, free, x, m, r); }
    else if D.IsHandleMove(m) { HandleReports(inline, free, x, m, r); }
    else if D.IsStopMove(m) { StopReports(inline, free, x, m, r); }
    else if D.IsDeliveryMove(m) { DeliveryReports(inline, free, x, m, r); }
    else { FinishReports(inline, free, x, m, r); }
  }

  /** Only a body that returns changes an outcome, and only its own. */
  ghost predicate OutcomesMoved(s: State, step: SR.Step, t: State) {
    && |t.nodes| == |s.nodes|
    && (forall v {:trigger t.nodes[v]} :: 0 <= v < |s.nodes| ==> t.nodes[v].entered >= s.nodes[v].entered)
    && forall v {:trigger t.nodes[v]} :: 0 <= v < |s.nodes| ==>
         t.nodes[v].outcome == s.nodes[v].outcome
         || (step.AgentStep? && step.a == v && v < |s.pcs| && s.pcs[v] in {InBody, Waiting}
             && t.nodes[v].outcome == Some(step.c.r))
  }

  lemma JobOutcomes(p: Plan, s: State, a: nat, c: Choice, t: State)
    requires Shape(p, s) && SR.Enabled(p, s, SR.AgentStep(a, c)) && SR.Steps(p, s, SR.AgentStep(a, c), t)
    requires s.pcs[a].Queued? || s.pcs[a].Claiming? || s.pcs[a].InBody? || s.pcs[a].Waiting? || s.pcs[a].Storing?
    ensures OutcomesMoved(s, SR.AgentStep(a, c), t)
  {
    hide Open, OpenFrom, InDegree, NoCut, Roots, RootsFrom, IsRoot, IsCut;
  }

  lemma EdgeOutcomes(p: Plan, s: State, a: nat, c: Choice, t: State)
    requires Shape(p, s) && SR.Enabled(p, s, SR.AgentStep(a, c)) && SR.Steps(p, s, SR.AgentStep(a, c), t)
    requires s.pcs[a].Edge? || s.pcs[a].Dispatching?
    ensures OutcomesMoved(s, SR.AgentStep(a, c), t)
  {
    hide Open, OpenFrom, InDegree, NoCut, Roots, RootsFrom, IsRoot, IsCut;
  }

  lemma CountOutcomes(p: Plan, s: State, a: nat, c: Choice, t: State)
    requires Shape(p, s) && SR.Enabled(p, s, SR.AgentStep(a, c)) && SR.Steps(p, s, SR.AgentStep(a, c), t)
    requires s.pcs[a].Decrement? || s.pcs[a].Waking?
    ensures OutcomesMoved(s, SR.AgentStep(a, c), t)
  {
    hide Open, OpenFrom, InDegree, NoCut, Roots, RootsFrom, IsRoot, IsCut, Out;
  }

  lemma RejectionOutcomes(p: Plan, s: State, a: nat, c: Choice, t: State)
    requires Shape(p, s) && SR.Enabled(p, s, SR.AgentStep(a, c)) && SR.Steps(p, s, SR.AgentStep(a, c), t)
    requires s.pcs[a].Rejecting? || s.pcs[a].RejectRecording? || s.pcs[a].Sweeping?
    ensures OutcomesMoved(s, SR.AgentStep(a, c), t)
  {
    hide Open, OpenFrom, InDegree, NoCut, Roots, RootsFrom, IsRoot, IsCut, Out;
  }

  lemma FailureOutcomes(p: Plan, s: State, a: nat, c: Choice, t: State)
    requires Shape(p, s) && SR.Enabled(p, s, SR.AgentStep(a, c)) && SR.Steps(p, s, SR.AgentStep(a, c), t)
    requires s.pcs[a].Recording? || s.pcs[a].Failing?
    ensures OutcomesMoved(s, SR.AgentStep(a, c), t)
  {
    hide Open, OpenFrom, InDegree, NoCut, Roots, RootsFrom, IsRoot, IsCut, Out;
  }

  lemma DrainOutcomes(p: Plan, s: State, t: State)
    requires Shape(p, s) && SR.Enabled(p, s, SR.DrainStep) && SR.Steps(p, s, SR.DrainStep, t)
    ensures OutcomesMoved(s, SR.DrainStep, t)
  {
    hide Open, OpenFrom, InDegree, NoCut, Roots, RootsFrom, IsRoot, IsCut, Out;
  }

  lemma StepOutcomes(p: Plan, s: State, step: SR.Step, t: State)
    requires Shape(p, s) && SR.Enabled(p, s, step) && SR.Steps(p, s, step, t)
    ensures OutcomesMoved(s, step, t)
  {
    hide SR.Steps, IsCut, ValidPlan, PcShape, OutcomesMoved, Roots, InDegree;
    match step
    case DrainStep => DrainOutcomes(p, s, t);
    case AgentStep(a, c) =>
      if s.pcs[a].Queued? || s.pcs[a].Claiming? || s.pcs[a].InBody? || s.pcs[a].Waiting? || s.pcs[a].Storing? {
        JobOutcomes(p, s, a, c, t);
      } else if s.pcs[a].Edge? || s.pcs[a].Dispatching? {
        EdgeOutcomes(p, s, a, c, t);
      } else if s.pcs[a].Decrement? || s.pcs[a].Waking? {
        CountOutcomes(p, s, a, c, t);
      } else if s.pcs[a].Recording? || s.pcs[a].Failing? {
        FailureOutcomes(p, s, a, c, t);
      } else {
        RejectionOutcomes(p, s, a, c, t);
      }
  }

  lemma GuardReports(x: D.Slot, c: Choice)
    requires D.SlotOk(x) && AgentGuard(x, c)
    ensures Reports(x, c.r)
  {
    hide D.StopOk, D.OutcomeOk, D.DeliveryOk, D.ResultOk, D.OrphanOk, D.EarlyOk;
  }

  /** A run reports what the slots say, as long as no run has left a job unfinished. */
  ghost predicate Reported(p: Plan, w: World) {
    !w.unfinished && Active(w) ==> Sized(p, w) && ReportsOk(p, w)
  }

  lemma ReportsAt(p: Plan, w: World, v: nat)
    requires Reported(p, w) && !w.unfinished && Active(w) && v < |p.g| && v < |w.s.nodes| && p.deferred[v]
    ensures |w.d.slots| == |p.g|
    ensures w.s.nodes[v].outcome.Some? ==> Reports(w.d.slots[v], w.s.nodes[v].outcome.value)
    ensures w.d.slots[v].body.Waiting? || w.s.nodes[v].entered > 0
  {
    hide Reports;
  }

  /** Only the check takes a body out of Waiting, and an agent in its body has entered it. */
  lemma CheckEntered(p: Plan, s: State, v: nat)
    requires Inv(p, s) && v < |p.g| && s.pcs[v] == InBody
    ensures s.nodes[v].entered == 1
  {
    hide EdgesOk, HoldsOk, OwnersOk, SettledOk, WorklistOk, FatalOk, Roots, IsRoot, InDegree, Open;
    LocalRecord(p, s, v);
  }

  lemma SlotReports(p: Plan, w: World, act: Act, x: World)
    requires WorldOk(p, w) && Reported(p, w) && Steps(p, w, act, x) && act.OnSlot? && !w.unfinished && Active(w)
    ensures Sized(p, x) && ReportsOk(p, x)
  {
    hide DR.Inv, Inv, OnDemandIdle, LinksOk, WaitOk, Risky, Chained, Unused, D.Can, D.After, Reports, Reported;
    hide DR.LedgerAfter, DR.AwaitedAfter;
    var i, m := act.i, act.m;
    SlotAt(w.d, i);
    var y := w.d.slots[i];
    SlotAdvances(w.d.inline, w.d.ledger.None?, y, m);
    forall v {:trigger x.s.nodes[v]} | 0 <= v < |p.g| && v < |x.s.nodes| && p.deferred[v]
      ensures x.s.nodes[v].outcome.Some? ==> Reports(x.d.slots[v], x.s.nodes[v].outcome.value)
      ensures x.d.slots[v].body.Waiting? || x.s.nodes[v].entered > 0
    {
      ReportsAt(p, w, v);
      if v == i {
        if w.s.nodes[i].outcome.Some? {
          MoveReports(w.d.inline, w.d.ledger.None?, y, m, w.s.nodes[i].outcome.value);
        }
        if m.Check? { CheckEntered(p, w.s, i); }
      }
    }
  }

  lemma LookReports(inline: bool, free: bool, x: D.Slot, r: Result)
    requires D.Can(inline, free, x, D.Look)
    ensures !Reports(x, r) && !x.body.Waiting? && !D.After(inline, free, x, D.Look).body.Waiting?
  {
  }

  lemma AwaitReports(p: Plan, w: World, act: Act, x: World)
    requires WorldOk(p, w) && Reported(p, w) && Steps(p, w, act, x) && act.Await? && !w.unfinished && Active(w)
    ensures Sized(p, x) && ReportsOk(p, x)
  {
    hide DR.Inv, Inv, OnDemandIdle, LinksOk, WaitOk, Risky, Chained, Unused, D.Can, D.After, Reports, Reported;
    var i := act.i;
    var y := w.d.slots[i];
    forall v {:trigger x.s.nodes[v]} | 0 <= v < |p.g| && v < |x.s.nodes| && p.deferred[v]
      ensures x.s.nodes[v].outcome.Some? ==> Reports(x.d.slots[v], x.s.nodes[v].outcome.value)
      ensures x.d.slots[v].body.Waiting? || x.s.nodes[v].entered > 0
    {
      ReportsAt(p, w, v);
      if v == i {
        LookReports(w.d.inline, w.d.ledger.None?, y,
                    if w.s.nodes[i].outcome.Some? then w.s.nodes[i].outcome.value else Ok);
      }
    }
  }

  lemma AgentFacts(p: Plan, w: World, act: Act, x: World)
    requires WorldOk(p, w) && Steps(p, w, act, x) && act.Agent? && !w.unfinished && Active(w)
    ensures Sized(p, w) && Sized(p, x) && Shape(p, w.s) && SR.Enabled(p, w.s, act.step)
    ensures SR.Steps(p, w.s, act.step, x.s) && x.d == w.d && DR.Inv(w.d)
    ensures act.step.AgentStep? && act.step.a < |p.g| && p.deferred[act.step.a]
            && w.s.pcs[act.step.a] in {InBody, Waiting} ==>
      AgentGuard(w.d.slots[act.step.a], act.step.c)
  {
    hide DR.Inv, Inv, OnDemandIdle, LinksOk, WaitOk, Risky, Chained, Unused, SR.Enabled, SR.Steps, AgentGuard, IsCut;
    hide Roots, InDegree;
    assert |x.s.pcs| == |w.s.pcs| by { StepShape(p, w.s, act.step, x.s); }
  }

  lemma StepShape(p: Plan, s: State, step: SR.Step, t: State)
    requires Inv(p, s) && SR.Enabled(p, s, step) && SR.Steps(p, s, step, t)
    ensures |t.pcs| == |s.pcs|
  {
    hide Inv, SR.Steps, IsCut, Roots, InDegree;
    InvShape(p, s);
    SR.StepKeeps(p, s, step, t);
    InvShape(p, t);
  }

  lemma AgentReports(p: Plan, w: World, act: Act, x: World)
    requires WorldOk(p, w) && Reported(p, w) && Steps(p, w, act, x) && act.Agent? && !w.unfinished && Active(w)
    ensures Sized(p, x) && ReportsOk(p, x)
  {
    hide WorldOk, Steps, DR.Inv, Shape, SR.Enabled, SR.Steps, Reports, Reported, AgentGuard;
    AgentFacts(p, w, act, x);
    StepOutcomes(p, w.s, act.step, x.s);
    forall v {:trigger x.s.nodes[v]} | 0 <= v < |p.g| && v < |x.s.nodes| && p.deferred[v]
      ensures x.s.nodes[v].outcome.Some? ==> Reports(x.d.slots[v], x.s.nodes[v].outcome.value)
      ensures x.d.slots[v].body.Waiting? || x.s.nodes[v].entered > 0
    {
      ReportsAt(p, w, v);
      if x.s.nodes[v].outcome != w.s.nodes[v].outcome {
        SlotAt(w.d, v);
        GuardReports(w.d.slots[v], act.step.c);
      }
    }
  }

  lemma FreshReports(p: Plan, w: World, act: Act, x: World)
    requires Steps(p, w, act, x) && act.StartRun? && !x.unfinished && ValidPlan(p)
    ensures Sized(p, x) && ReportsOk(p, x)
  {
    hide InDegree, Roots, NoCut, Reports;
    NoOutcomes(p);
  }

  /** Only the start of a run makes it active; the calling thread's other steps leave agents and slots alone, or end the
      run. */
  lemma StaysActive(p: Plan, w: World, act: Act, x: World)
    requires Steps(p, w, act, x) && !act.StartRun? && !x.unfinished && Active(x)
    ensures Active(w) && !w.unfinished
    ensures act.OnSlot? || act.Await? || act.Agent? || (x.s == w.s && x.d == w.d)
  {
    hide DR.Idle, ExecutorIdle, JobsDone, D.Can, D.After, SR.Enabled, SR.Steps, SlotGuard, AgentGuard;
    hide DR.LedgerAfter, DR.AwaitedAfter;
  }

  lemma StepReports(p: Plan, w: World, act: Act, x: World)
    requires WorldOk(p, w) && Reported(p, w) && Steps(p, w, act, x) && ValidPlan(p)
    ensures Reported(p, x)
  {
    hide WorldOk, Steps, ReportsOk, Shape, Sized;
    if !x.unfinished && Active(x) {
      if act.StartRun? {
        FreshReports(p, w, act, x);
      } else {
        StaysActive(p, w, act, x);
        match act
        case OnSlot(_, _) => SlotReports(p, w, act, x);
        case Await(_) => AwaitReports(p, w, act, x);
        case Agent(_) => AgentReports(p, w, act, x);
        case _ => SameReports(p, w, x);
      }
    }
  }

  lemma SameReports(p: Plan, w: World, x: World)
    requires Sized(p, w) && ReportsOk(p, w) && x.s == w.s && x.d == w.d
    ensures Sized(p, x) && ReportsOk(p, x)
  {
    hide Reports;
  }

  lemma NoOutcomes(p: Plan)
    ensures forall v {:trigger Init(p).nodes[v]} :: 0 <= v < |Init(p).nodes| ==> Init(p).nodes[v].outcome.None?
  {
    hide InDegree, Roots, NoCut;
  }

  lemma {:induction false} HistoryReports(p: Plan, worlds: seq<World>, k: nat)
    requires ValidPlan(p) && IsHistory(p, worlds) && k < |worlds|
    ensures Reported(p, worlds[k])
  {
    hide WorldOk, Steps, Reported;
    if k == 0 {
      CreatedReports(p);
    } else {
      HistoryReports(p, worlds, k - 1);
      HistoryOk(p, worlds, k - 1);
      assert Next(p, worlds[k - 1], worlds[k]);
      var act :| Steps(p, worlds[k - 1], act, worlds[k]);
      StepReports(p, worlds[k - 1], act, worlds[k]);
    }
  }

  lemma CreatedReports(p: Plan)
    ensures Reported(p, Created(p))
  {
    hide InDegree, Roots, NoCut;
  }

  /** What the scheduler is told of a deferred job is what its protocol decided: of a job refused at its start, Cancelled
      because a stop had been requested, or that there is no deadline service; of any other, Timeout if the deadline had
      expired when the winner wrote, otherwise the value its Completion was signalled with, or Cancelled for a stop. And
      a job is shown as Awaiting only once its body has returned. */
  lemma DeferredOutcome(p: Plan, worlds: seq<World>, k: nat, v: nat)
    requires ValidPlan(p) && IsHistory(p, worlds) && k < |worlds| && v < |p.g| && p.deferred[v]
    requires !worlds[k].unfinished && Active(worlds[k])
    ensures v < |worlds[k].s.nodes| && v < |worlds[k].d.slots|
    ensures var x, nd := worlds[k].d.slots[v], worlds[k].s.nodes[v];
      && (nd.outcome.Some? && x.body.Refused? ==>
            nd.outcome == Some(Err(DeadlineUnavailable)) || (nd.outcome == Some(Err(Cancelled)) && x.stopRequested))
      && (nd.outcome.Some? && !x.body.Refused? ==>
            && x.body.Left? && !x.claim.NoClaim?
            && nd.outcome.value == if x.late then Err(Timeout)
                                   else if x.claim.BySignal? then x.claim.v else Err(Cancelled))
      && (x.finishedWith.Some? ==> nd.outcome == x.finishedWith)
      && (nd.status == Awaiting && nd.outcome.None? ==> x.body.Arriving? || x.body.Left?)
  {
    hide IsHistory, DR.Inv, OnDemandIdle, WaitOk, Risky, Chained, Unused, D.SlotOk;
    hide EdgesOk, HoldsOk, OwnersOk, SettledOk, WorklistOk, FatalOk, Roots, InDegree;
    var w := worlds[k];
    HistoryOk(p, worlds, k);
    HistoryReports(p, worlds, k);
    SlotAt(w.d, v);
    LocalRecord(p, w.s, v);
    DecidedResult(w.d.slots[v]);
    assert Linked(p.deferred[v], Draining(w, v), w.s.pcs[v], w.d.slots[v]);
  }

  lemma DecidedResult(x: D.Slot)
    requires D.SlotOk(x)
    ensures x.body.Left? && (D.At(x, D.AtFinish) || D.At(x, D.AtUncount) || x.finish.Finished?) ==>
      !x.claim.NoClaim?
      && x.result == if x.late then Err(Timeout) else if x.claim.BySignal? then x.claim.v else Err(Cancelled)
    ensures x.finishedWith.Some? ==> x.finishedWith.value == x.result && (D.At(x, D.AtUncount) || x.finish.Finished?)
                                     && x.body.Left?
    ensures x.body.Refused? ==> x.body.error == DeadlineUnavailable || (x.body.error == Cancelled && x.stopRequested)
  {
    hide D.DeliveryOk, D.OrphanOk, D.EarlyOk;
  }
}
