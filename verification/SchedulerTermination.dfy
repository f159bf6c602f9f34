/** Every threaded run is finite: each step lowers a measure that starts at a fixed bound. */
module SchedulerTermination {
  import opened Graphs
  import opened Scheduler
  import opened SchedulerInvariant
  import opened SchedulerRuns
  import opened SchedulerTheorems

  /** How many steps an agent at `pc` can still take, an accepted submission aside. */
  function Rank(n: nat, d: nat, pc: Pc): int {
    match pc
    case Ended => 0
    case Sweeping(q) => 1 + n - q
    case RejectRecording(_) => n + 2
    case Rejecting(_) => n + 3
    case Failing(k) => n + 4 + d - k
    case Edge(k) => n + 4 + 4 * (d - k)
    case Decrement(k) => n + 3 + 4 * (d - k)
    case Waking(k) => n + 2 + 4 * (d - k)
    case Dispatching(k) => n + 1 + 4 * (d - k)
    case Recording => n + 5 + 4 * d
    case Storing => n + 6 + 4 * d
    case Waiting => n + 7 + 4 * d
    case InBody => n + 8 + 4 * d
    case Claiming => n + 9 + 4 * d
    case Queued => n + 10 + 4 * d
    case Idle => n + 11 + 4 * d
  }

  ghost function RankSum(p: Plan, pcs: seq<Pc>, m: nat): int
    requires m <= |pcs|
  {
    if m == 0 then 0 else RankSum(p, pcs, m - 1) + Rank(|p.g|, |Out(p, m - 1)|, pcs[m - 1])
  }

  lemma {:induction false} RankSumUpdate(p: Plan, pcs: seq<Pc>, m: nat, a: nat, pc: Pc)
    requires m <= |pcs| && a < |pcs|
    ensures RankSum(p, pcs[a := pc], m) == RankSum(p, pcs, m)
              + (if a < m then Rank(|p.g|, |Out(p, a)|, pc) - Rank(|p.g|, |Out(p, a)|, pcs[a]) else 0)
  {
    hide Out, Rank;
    if m > 0 { RankSumUpdate(p, pcs, m - 1, a, pc); }
  }

  lemma RankNonnegative(p: Plan, a: nat, pc: Pc)
    requires PcShape(p, a, pc) && a <= |p.g|
    ensures Rank(|p.g|, |Out(p, a)|, pc) >= 0
  {
    hide Roots;
  }

  lemma {:induction false} RankSumNonnegative(p: Plan, pcs: seq<Pc>, m: nat)
    requires m <= |pcs| && |pcs| == |p.g| + 1
    requires forall a :: 0 <= a < |pcs| ==> PcShape(p, a, pcs[a])
    ensures RankSum(p, pcs, m) >= 0
  {
    hide Out, Rank, PcShape;
    if m > 0 {
      RankSumNonnegative(p, pcs, m - 1);
      RankNonnegative(p, m - 1, pcs[m - 1]);
    }
  }

  /** The cost of the worklist entries that have not been read, present or future. */
  ghost function UnreadCost(g: Graph, read: seq<nat>, m: nat): nat
    requires m <= |g|
  {
    if m == 0 then 0
    else UnreadCost(g, read, m - 1) + (if m - 1 in read then 0 else |g[m - 1]| + 2)
  }

  lemma {:induction false} UnreadCostRead(g: Graph, read: seq<nat>, v: nat, m: nat)
    requires m <= |g| && v < |g| && v !in read
    ensures UnreadCost(g, read, m) == UnreadCost(g, read + [v], m) + (if v < m then |g[v]| + 2 else 0)
  {
    if m > 0 {
      UnreadCostRead(g, read, v, m - 1);
      assert m - 1 in read + [v] <==> m - 1 in read || m - 1 == v;
    }
  }

  function DrainCost(g: Graph, d: Drain): int {
    match d
    case NotDraining => 0
    case Pop => 1
    case Expand(u, k) => if u < |g| then |g[u]| - k + 2 else 0
  }

  ghost function Measure(p: Plan, s: State): int
    requires Shape(p, s)
  {
    2 * RankSum(p, s.pcs, |s.pcs|) + UnreadCost(p.g, s.skipped[..s.skipRead], |p.g|) + DrainCost(p.g, s.drain)
  }

  lemma MeasureNonnegative(p: Plan, s: State)
    requires Shape(p, s)
    ensures Measure(p, s) >= 0
  {
    RankSumNonnegative(p, s.pcs, |s.pcs|);
  }

  /** What an agent's step does to the control points and the worklist, as far as the measure sees. */
  ghost predicate Ranked(p: Plan, s: State, a: nat, t: State)
    requires Shape(p, s) && a <= |p.g|
  {
    && s.skipped <= t.skipped && t.skipRead == s.skipRead
    && (t.drain == s.drain || (s.drain.NotDraining? && t.drain.Pop?))
    && |t.pcs| == |s.pcs|
    && Rank(|p.g|, |Out(p, a)|, t.pcs[a]) < Rank(|p.g|, |Out(p, a)|, s.pcs[a])
    && (t.pcs == s.pcs[a := t.pcs[a]] || Submitted(p, s, a, t))
  }

  /** The target of the submission had no agent and now has one. */
  ghost predicate Submitted(p: Plan, s: State, a: nat, t: State)
    requires Shape(p, s) && a <= |p.g| && a < |t.pcs|
  {
    && s.pcs[a].Dispatching?
    && (var v := Out(p, a)[s.pcs[a].k];
        v < |p.g| && s.pcs[v] == Idle && t.pcs == s.pcs[a := t.pcs[a]][v := Queued])
  }

  lemma RankedLowers(p: Plan, s: State, a: nat, t: State)
    requires Shape(p, s) && a <= |p.g| && Shape(p, t) && Ranked(p, s, a, t)
    ensures Measure(p, t) < Measure(p, s)
  {
    hide Roots, Out;
    RankSumUpdate(p, s.pcs, |s.pcs|, a, t.pcs[a]);
    if t.pcs != s.pcs[a := t.pcs[a]] {
      RankSumUpdate(p, s.pcs[a := t.pcs[a]], |s.pcs|, Out(p, a)[s.pcs[a].k], Queued);
    }
    assert t.skipped[..t.skipRead] == s.skipped[..s.skipRead];
  }

  lemma AgentLowers(p: Plan, s: State, a: nat, c: Choice, t: State)
    requires Inv(p, s) && Inv(p, t) && Enabled(p, s, AgentStep(a, c)) && Steps(p, s, AgentStep(a, c), t)
    ensures Measure(p, t) < Measure(p, s)
  {
    hide OpenFrom, Open, InDegree, NoCut, Roots, RootsFrom, IsRoot;
    hide LocalsOk, EdgesOk, HoldsOk, OwnersOk, SettledOk, WorklistOk, FatalOk, Measure, Ranked;
    HeldFactsEmpty(p, s, a);
    AgentRanked(p, s, a, c, t);
    RankedLowers(p, s, a, t);
  }

  /** A step that only moves agent `a` to a lower rank is ranked. */
  lemma MovedRanked(p: Plan, s: State, a: nat, t: State, pc: Pc)
    requires Shape(p, s) && a <= |p.g| && t.pcs == s.pcs[a := pc]
    requires s.skipped <= t.skipped && t.skipRead == s.skipRead
    requires t.drain == s.drain || (s.drain.NotDraining? && t.drain.Pop?)
    requires Rank(|p.g|, |Out(p, a)|, pc) < Rank(|p.g|, |Out(p, a)|, s.pcs[a])
    ensures Ranked(p, s, a, t)
  {
    hide Out, Rank, Roots;
  }

  lemma AgentRanked(p: Plan, s: State, a: nat, c: Choice, t: State)
    requires Shape(p, s) && Enabled(p, s, AgentStep(a, c)) && Steps(p, s, AgentStep(a, c), t)
    requires HeldOk(p, s, a, s.pcs[a])
    ensures Ranked(p, s, a, t)
  {
    hide OpenFrom, Open, InDegree, NoCut, Roots, RootsFrom, IsRoot, Ranked, HeldOk, PcShape;
    match s.pcs[a]
    case Queued =>
      IsNodeAgent(p, s, a);
      QueuedRanked(p, s, a);
    case Failing(_) =>
      IsNodeAgent(p, s, a);
      FailingRanked(p, s, a);
    case Sweeping(_) => SweepingRanked(p, s, a);
    case Edge(_) => EdgeRanked(p, s, a, c, t);
    case Dispatching(_) => DispatchRanked(p, s, a, c, t);
    case Claiming | InBody | Waiting | Storing | Recording => BodyRanked(p, s, a, c, t);
    case _ => HandRanked(p, s, a, c, t);
  }

  lemma IsNodeAgent(p: Plan, s: State, a: nat)
    requires Shape(p, s) && a <= |p.g| && (s.pcs[a].Queued? || s.pcs[a].Failing?)
    ensures a < |p.g|
  {
  }

  lemma QueuedRanked(p: Plan, s: State, a: nat)
    requires Shape(p, s) && a < |p.g| && s.pcs[a].Queued?
    ensures Ranked(p, s, a, DoQueued(p, s, a))
  {
    hide OpenFrom, Open, InDegree, NoCut, Roots, RootsFrom, IsRoot, Ranked, Out;
    MovedRanked(p, s, a, DoQueued(p, s, a), if s.fatal then Ended else Claiming);
  }

  lemma FailingRanked(p: Plan, s: State, a: nat)
    requires Shape(p, s) && a < |p.g| && s.pcs[a].Failing?
    ensures Ranked(p, s, a, DoFailing(p, s, a))
  {
    hide OpenFrom, Open, InDegree, NoCut, Roots, RootsFrom, IsRoot, Ranked;
    var k := s.pcs[a].k;
    MovedRanked(p, s, a, DoFailing(p, s, a), if k < |p.g[a]| then Failing(k + 1) else Ended);
  }

  lemma SweepingRanked(p: Plan, s: State, a: nat)
    requires Shape(p, s) && a <= |p.g| && s.pcs[a].Sweeping?
    ensures Ranked(p, s, a, DoSweeping(p, s, a))
  {
    hide OpenFrom, Open, InDegree, NoCut, Roots, RootsFrom, IsRoot, Ranked, Out;
    var q := s.pcs[a].q;
    MovedRanked(p, s, a, DoSweeping(p, s, a), if q < |p.g| then Sweeping(q + 1) else Ended);
  }

  lemma EdgeRanked(p: Plan, s: State, a: nat, c: Choice, t: State)
    requires Shape(p, s) && Enabled(p, s, AgentStep(a, c)) && Steps(p, s, AgentStep(a, c), t) && s.pcs[a].Edge?
    ensures Ranked(p, s, a, t)
  {
    hide OpenFrom, Open, InDegree, NoCut, Roots, RootsFrom, IsRoot, Ranked, Out;
    MovedRanked(p, s, a, t, t.pcs[a]);
  }

  lemma DispatchRanked(p: Plan, s: State, a: nat, c: Choice, t: State)
    requires Shape(p, s) && Enabled(p, s, AgentStep(a, c)) && Steps(p, s, AgentStep(a, c), t)
    requires HeldOk(p, s, a, s.pcs[a]) && s.pcs[a].Dispatching?
    ensures Ranked(p, s, a, t)
  {
    hide OpenFrom, Open, InDegree, NoCut, Roots, RootsFrom, IsRoot;
    assert !c.accepts ==> t.pcs == s.pcs[a := t.pcs[a]];
  }

  lemma BodyRanked(p: Plan, s: State, a: nat, c: Choice, t: State)
    requires Shape(p, s) && Enabled(p, s, AgentStep(a, c)) && Steps(p, s, AgentStep(a, c), t)
    requires s.pcs[a].Claiming? || s.pcs[a].InBody? || s.pcs[a].Waiting? || s.pcs[a].Storing? || s.pcs[a].Recording?
    ensures Ranked(p, s, a, t)
  {
    hide OpenFrom, Open, InDegree, NoCut, Roots, RootsFrom, IsRoot, Ranked;
    MovedRanked(p, s, a, t, t.pcs[a]);
  }

  lemma HandRanked(p: Plan, s: State, a: nat, c: Choice, t: State)
    requires Shape(p, s) && Enabled(p, s, AgentStep(a, c)) && Steps(p, s, AgentStep(a, c), t)
    requires s.pcs[a].Decrement? || s.pcs[a].Waking? || s.pcs[a].Rejecting? || s.pcs[a].RejectRecording?
    ensures Ranked(p, s, a, t)
  {
    hide OpenFrom, Open, InDegree, NoCut, Roots, RootsFrom, IsRoot, Ranked;
    MovedRanked(p, s, a, t, t.pcs[a]);
  }

  lemma DrainLowers(p: Plan, s: State, t: State)
    requires Inv(p, s) && Shape(p, t) && Enabled(p, s, DrainStep) && Steps(p, s, DrainStep, t)
    ensures Measure(p, t) < Measure(p, s)
  {
    hide OpenFrom, Open, InDegree, NoCut, Roots, RootsFrom, IsRoot, RankSum;
    hide LocalsOk, EdgesOk, HoldsOk, OwnersOk, SettledOk, FatalOk;
    if s.drain.Pop? && s.skipRead < |s.skipped| {
      var v := s.skipped[s.skipRead];
      assert s.skipped[..s.skipRead + 1] == s.skipped[..s.skipRead] + [v];
      UnreadCostRead(p.g, s.skipped[..s.skipRead], v, |p.g|);
    } else {
      assert t.skipped[..t.skipRead] == s.skipped[..s.skipRead];
    }
  }

  lemma {:induction false} RunLowers(p: Plan, states: seq<State>, steps: seq<Step>, i: nat)
    requires ValidPlan(p) && IsRun(p, states, steps) && i < |states|
    ensures Shape(p, states[i]) && Shape(p, Init(p)) && Measure(p, states[i]) <= Measure(p, Init(p)) - i
  {
    hide Inv, Measure, Steps, Enabled;
    RunInv(p, states, steps, i);
    InvShape(p, states[i]);
    InitHolds(p);
    InvShape(p, Init(p));
    if i > 0 {
      RunLowers(p, states, steps, i - 1);
      RunInv(p, states, steps, i - 1);
      match steps[i - 1]
      case AgentStep(a, c) => AgentLowers(p, states[i - 1], a, c, states[i]);
      case DrainStep => DrainLowers(p, states[i - 1], states[i]);
    }
  }

  /** No schedule, however adversarial, takes more steps than a bound fixed by the graph. */
  lemma RunsAreBounded(p: Plan, states: seq<State>, steps: seq<Step>)
    requires ValidPlan(p) && IsRun(p, states, steps)
    ensures Shape(p, Init(p)) && |steps| <= Measure(p, Init(p))
  {
    hide Inv, Measure, Steps, Enabled;
    RunLowers(p, states, steps, |steps|);
    MeasureNonnegative(p, states[|steps|]);
  }
}
