/** What a recorded failure stops: no body that has not passed the fatal check starts, no successor is counted down or
    handed over any more, and the recorded failure stands. */
module SchedulerFatal {
  import opened Jobs
  import opened Graphs
  import opened Scheduler
  import opened SchedulerInvariant
  import opened SchedulerSteps
  import opened SchedulerRuns
  import opened SchedulerTheorems

  /** The agent has not passed dispatchJob()'s check, or was turned away there. */
  predicate Outside(pc: Pc) { pc == Idle || pc == Queued || pc == Ended }

  /** `v` cannot start any more. */
  predicate Barred(s: State, v: nat) {
    v < |s.nodes| && v < |s.pcs| && Outside(s.pcs[v]) && s.nodes[v].entered == 0
  }

  /** The agent is not between its check of the flag for a successor and the hand-over of that successor. */
  predicate BetweenEdges(pc: Pc) { !pc.Decrement? && !pc.Waking? && !pc.Dispatching? }

  /** What a step may do once a failure is recorded. */
  ghost predicate Stopped(p: Plan, s: State, t: State)
    requires Shape(p, s)
  {
    && |t.nodes| == |s.nodes| && |t.pcs| == |s.pcs| && |t.cut| == |s.cut| && t.fatal && t.failure == s.failure
    && (forall v: nat {:trigger Barred(t, v)} :: v < |p.g| && Barred(s, v) ==> Barred(t, v))
    && (forall a: nat {:trigger t.pcs[a]} :: a <= |p.g| && BetweenEdges(s.pcs[a]) ==> BetweenEdges(t.pcs[a]))
    && (forall a: nat {:trigger t.cut[a]} :: a < |p.g| && BetweenEdges(s.pcs[a]) ==> t.cut[a] == s.cut[a])
  }

  /** Agent `a` moves and no body is entered. */
  ghost predicate OnlyMoves(p: Plan, s: State, a: nat, t: State)
    requires Shape(p, s)
  {
    && a < |s.pcs| && |t.nodes| == |s.nodes| && |t.pcs| == |s.pcs| && t.cut == s.cut && t.fatal && t.failure == s.failure
    && (forall v: nat {:trigger t.nodes[v]} :: v < |s.nodes| ==> t.nodes[v].entered == s.nodes[v].entered)
    && (forall b: nat {:trigger t.pcs[b]} :: b < |s.pcs| && b != a ==> t.pcs[b] == s.pcs[b])
    && (Outside(s.pcs[a]) ==> Outside(t.pcs[a])) && (BetweenEdges(s.pcs[a]) ==> BetweenEdges(t.pcs[a]))
  }

  lemma MovesStop(p: Plan, s: State, a: nat, t: State)
    requires Shape(p, s) && OnlyMoves(p, s, a, t)
    ensures Stopped(p, s, t)
  {
    hide Open, InDegree, NoCut, Roots, PcShape;
  }

  /** Skipping touches no agent, no count and no body. */
  lemma SkipTouches(s: State, v: nat)
    requires v < |s.nodes|
    ensures var t := SkipNode(s, v);
      && t.pcs == s.pcs && t.cut == s.cut && t.fatal == s.fatal && t.failure == s.failure && |t.nodes| == |s.nodes|
      && forall w: nat {:trigger t.nodes[w]} :: w < |s.nodes| ==> t.nodes[w].entered == s.nodes[w].entered
  {
  }

  lemma JobStops(p: Plan, s: State, a: nat, c: Choice, t: State)
    requires Shape(p, s) && Enabled(p, s, AgentStep(a, c)) && Steps(p, s, AgentStep(a, c), t) && s.fatal
    requires s.pcs[a].Queued? || s.pcs[a].InBody? || s.pcs[a].Waiting? || s.pcs[a].Storing? || s.pcs[a].Recording?
    ensures Stopped(p, s, t)
  {
    hide Open, OpenFrom, InDegree, NoCut, Roots, RootsFrom, IsRoot, IsCut, Out, SkipNode, Stopped;
    if s.pcs[a].Queued? { SkipTouches(s, a); }
    MovesStop(p, s, a, t);
  }

  lemma ClaimStops(p: Plan, s: State, a: nat, c: Choice, t: State)
    requires Shape(p, s) && Enabled(p, s, AgentStep(a, c)) && Steps(p, s, AgentStep(a, c), t) && s.fatal
    requires s.pcs[a].Claiming?
    ensures Stopped(p, s, t)
  {
    hide Open, OpenFrom, InDegree, NoCut, Roots, RootsFrom, IsRoot, IsCut, Out;
  }

  lemma FailureStops(p: Plan, s: State, a: nat, c: Choice, t: State)
    requires Shape(p, s) && Enabled(p, s, AgentStep(a, c)) && Steps(p, s, AgentStep(a, c), t) && s.fatal
    requires s.pcs[a].Failing? || s.pcs[a].Sweeping?
    ensures Stopped(p, s, t)
  {
    hide Open, OpenFrom, InDegree, NoCut, Roots, RootsFrom, IsRoot, IsCut, Out, SkipNode, Stopped;
    if s.pcs[a].Failing? && s.pcs[a].k < |p.g[a]| { SkipTouches(s, p.g[a][s.pcs[a].k]); }
    if s.pcs[a].Sweeping? && s.pcs[a].q < |p.g| { SkipTouches(s, s.pcs[a].q); }
    MovesStop(p, s, a, t);
  }

  lemma RejectionStops(p: Plan, s: State, a: nat, c: Choice, t: State)
    requires Shape(p, s) && Enabled(p, s, AgentStep(a, c)) && Steps(p, s, AgentStep(a, c), t) && s.fatal
    requires s.pcs[a].Rejecting? || s.pcs[a].RejectRecording?
    ensures Stopped(p, s, t)
  {
    hide Open, OpenFrom, InDegree, NoCut, Roots, RootsFrom, IsRoot, IsCut, Out, Stopped;
    MovesStop(p, s, a, t);
  }

  lemma EdgeStops(p: Plan, s: State, a: nat, c: Choice, t: State)
    requires Shape(p, s) && Enabled(p, s, AgentStep(a, c)) && Steps(p, s, AgentStep(a, c), t) && s.fatal
    requires s.pcs[a].Edge?
    ensures Stopped(p, s, t)
  {
    hide Open, OpenFrom, InDegree, NoCut, Roots, RootsFrom, IsRoot, IsCut, SkipNode, Stopped;
    if s.pcs[a].k < |Out(p, a)| { SkipTouches(s, Out(p, a)[s.pcs[a].k]); }
    MovesStop(p, s, a, t);
  }

  lemma CountStops(p: Plan, s: State, a: nat, c: Choice, t: State)
    requires Shape(p, s) && Enabled(p, s, AgentStep(a, c)) && Steps(p, s, AgentStep(a, c), t) && s.fatal
    requires s.pcs[a].Decrement? || s.pcs[a].Waking?
    ensures Stopped(p, s, t)
  {
    hide Open, OpenFrom, InDegree, NoCut, Roots, RootsFrom, IsRoot, Out;
  }

  lemma HandOverStops(p: Plan, s: State, a: nat, c: Choice, t: State)
    requires Shape(p, s) && Enabled(p, s, AgentStep(a, c)) && Steps(p, s, AgentStep(a, c), t) && s.fatal
    requires s.pcs[a].Dispatching?
    ensures Stopped(p, s, t)
  {
    hide Open, OpenFrom, InDegree, NoCut, Roots, RootsFrom, IsRoot;
  }

  lemma DrainStops(p: Plan, s: State, t: State)
    requires Shape(p, s) && Enabled(p, s, DrainStep) && Steps(p, s, DrainStep, t) && s.fatal
    ensures Stopped(p, s, t)
  {
    hide Open, OpenFrom, InDegree, NoCut, Roots, RootsFrom, IsRoot, IsCut, Out;
  }

  lemma StepStops(p: Plan, s: State, step: Step, t: State)
    requires Inv(p, s) && Enabled(p, s, step) && Steps(p, s, step, t) && s.fatal
    ensures Stopped(p, s, t)
  {
    hide Inv, Steps, Stopped, PcShape, IsCut, Roots;
    InvShape(p, s);
    match step
    case DrainStep => DrainStops(p, s, t);
    case AgentStep(a, c) =>
      match s.pcs[a]
      case Claiming => ClaimStops(p, s, a, c, t);
      case Failing(_) => FailureStops(p, s, a, c, t);
      case Sweeping(_) => FailureStops(p, s, a, c, t);
      case Edge(_) => EdgeStops(p, s, a, c, t);
      case Decrement(_) => CountStops(p, s, a, c, t);
      case Waking(_) => CountStops(p, s, a, c, t);
      case Dispatching(_) => HandOverStops(p, s, a, c, t);
      case Rejecting(_) => RejectionStops(p, s, a, c, t);
      case RejectRecording(_) => RejectionStops(p, s, a, c, t);
      case _ => JobStops(p, s, a, c, t);
  }

  // ---- Over runs ----

  lemma {:induction false} StoppedOn(p: Plan, states: seq<State>, steps: seq<Step>, i: nat, j: nat)
    requires ValidPlan(p) && IsRun(p, states, steps) && i <= j < |states| && Shape(p, states[i]) && states[i].fatal
    ensures Shape(p, states[j]) && Stopped(p, states[i], states[j])
    decreases j
  {
    hide Inv, Steps, Init, Shape;
    RunInv(p, states, steps, j);
    InvShape(p, states[j]);
    if i < j {
      StoppedOn(p, states, steps, i, j - 1);
      RunInv(p, states, steps, j - 1);
      StepStops(p, states[j - 1], steps[j - 1], states[j]);
      StoppedTwice(p, states[i], states[j - 1], states[j]);
    } else {
      StoppedSelf(p, states[i]);
    }
  }

  lemma StoppedSelf(p: Plan, s: State)
    requires Shape(p, s) && s.fatal
    ensures Stopped(p, s, s)
  {
  }

  lemma StoppedTwice(p: Plan, s: State, t: State, r: State)
    requires Shape(p, s) && Shape(p, t) && Stopped(p, s, t) && Stopped(p, t, r)
    ensures Stopped(p, s, r)
  {
    hide Outside, BetweenEdges;
    forall v: nat | v < |p.g| && Barred(s, v) ensures Barred(r, v) { assert Barred(t, v); }
    forall a: nat {:trigger r.pcs[a]} | a <= |p.g| && BetweenEdges(s.pcs[a]) ensures BetweenEdges(r.pcs[a]) {
      assert BetweenEdges(t.pcs[a]);
    }
    forall a: nat {:trigger r.cut[a]} | a < |p.g| && BetweenEdges(s.pcs[a]) ensures r.cut[a] == s.cut[a] {
      assert BetweenEdges(t.pcs[a]) && t.cut[a] == s.cut[a];
    }
  }

  /** Once a failure is recorded, a job whose agent the executor has not accepted or has not started to run is never
      entered: only an agent that has passed the check may still start its body. */
  lemma NothingStartsAfterFailure(p: Plan, states: seq<State>, steps: seq<Step>, i: nat, j: nat, v: nat)
    requires ValidPlan(p) && IsRun(p, states, steps) && i <= j < |states| && v < |p.g|
    ensures Shape(p, states[i]) && Shape(p, states[j])
    ensures states[i].fatal && (states[i].pcs[v] == Idle || states[i].pcs[v] == Queued) ==>
      states[j].nodes[v].entered == 0 == states[i].nodes[v].entered
      && (states[j].pcs[v] == Idle || states[j].pcs[v] == Queued || states[j].pcs[v] == Ended)
  {
    hide Inv, Steps, Init, Shape, Stopped;
    RunInv(p, states, steps, i);
    RunInv(p, states, steps, j);
    InvShape(p, states[i]);
    InvShape(p, states[j]);
    if states[i].fatal && (states[i].pcs[v] == Idle || states[i].pcs[v] == Queued) {
      NotEntered(p, states[i], v);
      StoppedOn(p, states, steps, i, j);
      StaysBarred(p, states[i], states[j], v);
    }
  }

  lemma NotEntered(p: Plan, s: State, v: nat)
    requires Inv(p, s) && v < |p.g| && (s.pcs[v] == Idle || s.pcs[v] == Queued)
    ensures Barred(s, v)
  {
    hide Open, OpenFrom, InDegree, NoCut, Roots, RootsFrom, IsRoot;
    hide LocalsOk, EdgesOk, HoldsOk, OwnersOk, SettledOk, WorklistOk, FatalOk;
    LocalRecord(p, s, v);
  }

  lemma StaysBarred(p: Plan, s: State, t: State, v: nat)
    requires Shape(p, s) && Stopped(p, s, t) && v < |p.g| && Barred(s, v)
    ensures Barred(t, v)
  {
    hide Barred;
  }

  /** Once a failure is recorded, an agent that is not between its check of the flag and the hand-over of a successor
      counts no successor down, makes none ready and hands none over, for the rest of the run. */
  lemma NothingHandedOverAfterFailure(p: Plan, states: seq<State>, steps: seq<Step>, i: nat, j: nat, a: nat)
    requires ValidPlan(p) && IsRun(p, states, steps) && i <= j < |states| && a <= |p.g|
    ensures Shape(p, states[i]) && Shape(p, states[j])
    ensures states[i].fatal && BetweenEdges(states[i].pcs[a]) ==>
      BetweenEdges(states[j].pcs[a]) && (a < |p.g| ==> states[j].cut[a] == states[i].cut[a])
  {
    hide Inv, Steps, Init, BetweenEdges, Barred;
    RunInv(p, states, steps, i);
    RunInv(p, states, steps, j);
    InvShape(p, states[i]);
    InvShape(p, states[j]);
    if states[i].fatal { StoppedOn(p, states, steps, i, j); }
  }

  /** The first failure recorded stands: neither it nor the flag changes again. */
  lemma FirstFailureStands(p: Plan, states: seq<State>, steps: seq<Step>, i: nat, j: nat)
    requires ValidPlan(p) && IsRun(p, states, steps) && i <= j < |states| && states[i].failure.Some?
    ensures states[j].fatal && states[j].failure == states[i].failure
  {
    hide Inv, Steps, Init, BetweenEdges, Barred;
    RunInv(p, states, steps, i);
    InvShape(p, states[i]);
    FlagRecorded(p, states[i]);
    StoppedOn(p, states, steps, i, j);
  }

  lemma FlagRecorded(p: Plan, s: State)
    requires Inv(p, s)
    ensures s.fatal <==> s.failure.Some?
  {
    hide LocalsOk, EdgesOk, HoldsOk, OwnersOk, SettledOk, WorklistOk;
  }
}
