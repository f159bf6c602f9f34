/** What every step of a pipeline's runs keeps. */
module PipelineSafety {
  import opened Jobs
  import opened Graphs
  import opened Scheduler
  import opened SchedulerInvariant
  import opened SchedulerSteps
  import opened SchedulerTheorems
  import SR = SchedulerRuns
  import D = Deferred
  import DR = DeferredRuns
  import opened PipelineRuns
  import opened PipelineAgents

  // ---- Facts of the invariant ----

  lemma WorldSized(p: Plan, w: World)
    requires WorldOk(p, w) && !w.unfinished && Active(w)
    ensures Sized(p, w) && LinksOk(p, w)
  {
    hide DR.Inv, Inv, OnDemandIdle, WaitOk, Risky, Chained, Unused, Linked;
  }

  /** Whoever is inside the skip loop is under way. */
  lemma DrainerActs(w: World)
    ensures w.drainer < |w.s.pcs| ==> w.s.drain.NotDraining? || Acting(w, w.drainer)
  {
  }

  // ---- A slot's move ----

  lemma SlotAt(d: DR.State, i: nat)
    requires DR.Inv(d) && i < |d.slots|
    ensures D.SlotOk(d.slots[i])
  {
    hide D.SlotOk, DR.CountsOk, DR.LedgerOk, DR.AwaitedOk, DR.PhaseOk;
  }

  lemma SlotLinks(p: Plan, w: World, i: nat, m: D.Move, x: World)
    requires LinksOk(p, w) && DR.Inv(w.d) && Unused(p, w.d)
    requires DR.Enabled(w.d, DR.OnSlot(i, m)) && (m.Check? ==> p.deferred[i]) && i < |w.s.pcs| && SlotGuard(w, i, m)
    requires x == w.(d := DR.Step(w.d, DR.OnSlot(i, m)))
    ensures LinksOk(p, x)
  {
    hide D.SlotOk, D.Can, D.After, DR.Inv, Linked, Advances;
    SlotAt(w.d, i);
    var free := w.d.ledger.None?;
    assert Linked(p.deferred[i], Draining(w, i), w.s.pcs[i], w.d.slots[i]);
    if p.deferred[i] {
      LinkedMove(w.d.inline, free, w.d.slots[i], m, Draining(w, i), w.s.pcs[i]);
    } else {
      SlotAdvances(w.d.inline, free, w.d.slots[i], m);
      StillPlain(w.d.slots[i], x.d.slots[i], m);
      PlainLinked(Draining(w, i), w.s.pcs[i], w.d.slots[i], x.d.slots[i]);
    }
    forall v {:trigger x.s.pcs[v]} | 0 <= v < |p.g|
      ensures Linked(p.deferred[v], Draining(x, v), x.s.pcs[v], x.d.slots[v])
    {
      assert Linked(p.deferred[v], Draining(w, v), w.s.pcs[v], w.d.slots[v]);
    }
  }

  lemma StillPlain(x: D.Slot, y: D.Slot, m: D.Move)
    requires Advances(x, y, m) && x.body.Waiting? && !m.Check?
    ensures y.body.Waiting? && y.leaving <= x.leaving
  {
  }

  lemma Subset(a: set<nat>, b: set<nat>)
    requires a <= b
    ensures |a| <= |b|
  {
    if a != b {
      var x :| x in b && x !in a;
      assert a <= b - {x};
      Subset(a, b - {x});
    }
  }

  /** A move of slot `i` that takes it to `y` keeps what the calling thread knows of its job. */
  lemma NodeAdvances(p: Plan, wait: Wait, v: nat, first: bool, settled: bool, busy: bool, draining: bool, pc: Pc,
                     x: D.Slot, y: D.Slot, m: D.Move)
    requires v < |p.deferred| && NodeWaitOk(p, wait, v, first, settled, busy, pc, x) && Advances(x, y, m)
    requires Linked(p.deferred[v], draining, pc, x)
    requires x.finish.Finished? && D.InFlight(x) == 0 ==> D.InFlight(y) == 0
    ensures NodeWaitOk(p, wait, v, first, settled, busy, pc, y)
  {
    hide BelowDeferred, Risky, Startable, D.Started, D.InFlight, Linked;
    if pc == Ended { LinkedEnded(p.deferred[v], draining, x); }
  }

  lemma SlotWaits(p: Plan, w: World, i: nat, m: D.Move, x: World)
    requires LinksOk(p, w) && DR.Inv(w.d) && WaitOk(p, w)
    requires DR.Enabled(w.d, DR.OnSlot(i, m)) && x == w.(d := DR.Step(w.d, DR.OnSlot(i, m)))
    ensures Sized(p, x) && WaitOk(p, x)
  {
    hide DR.Inv, D.SlotOk, D.Can, D.After, Linked, NodeWaitOk, D.InFlight, D.Started;
    var free := w.d.ledger.None?;
    SlotAt(w.d, i);
    SlotAdvances(w.d.inline, free, w.d.slots[i], m);
    if w.d.slots[i].finish.Finished? && D.InFlight(w.d.slots[i]) == 0 { FinishedStays(w.d.inline, free, w.d.slots[i], m); }
    StartedGrow(w.d, i, x.d, m);
    if !w.wait.Submitting? {
      forall v {:trigger x.s.pcs[v]} | 0 <= v < |p.g|
        ensures NodeWaitOk(p, x.wait, v, v in x.first, v in x.settled, Acting(x, v), x.s.pcs[v], x.d.slots[v])
      {
        assert NodeWaitOk(p, w.wait, v, v in w.first, v in w.settled, Acting(w, v), w.s.pcs[v], w.d.slots[v]);
        if v == i {
          assert Linked(p.deferred[v], Draining(w, v), w.s.pcs[v], w.d.slots[v]);
          NodeAdvances(p, w.wait, v, v in w.first, v in w.settled, Acting(w, v), Draining(w, v), w.s.pcs[v],
                       w.d.slots[v], x.d.slots[v], m);
        }
      }
    }
  }

  /** Started jobs stay started. */
  lemma StartedGrow(d: DR.State, i: nat, e: DR.State, m: D.Move)
    requires i < |d.slots| == |e.slots| && e.slots == d.slots[i := e.slots[i]] && Advances(d.slots[i], e.slots[i], m)
    ensures StartedJobs(d) <= StartedJobs(e) && |StartedJobs(d)| <= |StartedJobs(e)|
  {
    hide D.Started;
    Subset(StartedJobs(d), StartedJobs(e));
  }

  lemma SlotUnused(p: Plan, d: DR.State, i: nat, m: D.Move)
    requires DR.Inv(d) && Unused(p, d) && |d.slots| == |p.deferred|
    requires DR.Enabled(d, DR.OnSlot(i, m)) && (m.Check? ==> p.deferred[i])
    ensures Unused(p, DR.Step(d, DR.OnSlot(i, m)))
  {
    hide D.Can, D.After, DR.Inv, D.SlotOk;
    SlotAt(d, i);
    SlotAdvances(d.inline, d.ledger.None?, d.slots[i], m);
  }

  lemma SlotKeeps(p: Plan, w: World, i: nat, m: D.Move, x: World)
    requires WorldOk(p, w) && Steps(p, w, OnSlot(i, m), x)
    ensures WorldOk(p, x)
  {
    hide D.Can, D.After, DR.Inv, Inv, OnDemandIdle, LinksOk, WaitOk, Risky, Chained, Unused, SlotGuard;
    if !w.unfinished {
      DR.StepKeeps(w.d, DR.OnSlot(i, m));
      SlotUnused(p, w.d, i, m);
      if Active(w) {
        SlotLinks(p, w, i, m, x);
        if Threaded(w) { SlotWaits(p, w, i, m, x); }
      }
    }
  }

  // ---- An agent's step ----

  lemma InvFacts(p: Plan, s: State, a: nat)
    requires Inv(p, s) && a <= |p.g|
    ensures Shape(p, s) && HeldOk(p, s, a, s.pcs[a])
    ensures s.pcs[a].Dispatching? && a < |p.g| ==> s.nodes[p.g[a][s.pcs[a].k]].unmet == 0
  {
    hide Open, OpenFrom, InDegree, NoCut, Roots, RootsFrom, IsRoot;
    SR.Facts(p, s, a);
  }

  /** Whoever was entered has entered sources only. */
  lemma {:induction false} EnteredAlong(p: Plan, s: State, path: seq<nat>)
    requires Inv(p, s) && IsPath(p.g, path) && s.nodes[path[|path| - 1]].entered == 1
    ensures s.nodes[path[0]].entered == 1
    decreases |path|
  {
    hide Inv;
    InvShape(p, s);
    var last := |path| - 1;
    if last > 0 {
      assert IsEdge(p.g, path[last - 1], path[last]);
      ConsumedPredecessor(p, s, path[last - 1], path[last]);
      EnteredAlong(p, s, path[..last]);
    }
  }

  /** A predecessor of a node that waits for nothing any more was entered. */
  lemma ReadyPredecessor(p: Plan, s: State, u: nat, v: nat)
    requires Inv(p, s) && v < |p.g| && s.nodes[v].unmet == 0 && IsEdge(p.g, u, v)
    ensures u < |p.g| && s.nodes[u].entered == 1
  {
    hide OpenFrom, Open, InDegree, NoCut, Roots, RootsFrom, IsRoot;
    hide HoldsOk, OwnersOk, SettledOk, WorklistOk, FatalOk;
    LocalRecord(p, s, u);
    var e :| 0 <= e < |p.g[u]| && p.g[u][e] == v;
    assert s.nodes[v].unmet == Open(p.g, s.cut, v);
    OpenZero(p.g, s.cut, v);
    assert e < s.cut[u];
  }

  lemma NotEntered(p: Plan, s: State, o: nat)
    requires Inv(p, s) && OnDemandIdle(p, s) && OnDemandSource(p, o)
    ensures o < |s.nodes| && s.nodes[o].entered == 0
  {
    hide OpenFrom, Open, InDegree, NoCut, Roots, RootsFrom, IsRoot;
    hide HoldsOk, EdgesOk, OwnersOk, SettledOk, WorklistOk, FatalOk;
    LocalRecord(p, s, o);
  }

  /** A node that waits for nothing and has a predecessor is below no on-demand source. */
  lemma ReadyStartable(p: Plan, s: State, u: nat, v: nat)
    requires Inv(p, s) && OnDemandIdle(p, s) && v < |p.g| && s.nodes[v].unmet == 0 && IsEdge(p.g, u, v)
    ensures Startable(p, v)
  {
    hide Inv, OnDemandIdle;
    InvShape(p, s);
    forall o: nat | Graphs.Reaches(p.g, o, v) ensures !OnDemandSource(p, o) {
      var path :| IsPath(p.g, path) && path[0] == o && path[|path| - 1] == v;
      if OnDemandSource(p, o) {
        NotEntered(p, s, o);
        if |path| == 1 {
          HasInEdge(p, u, v);
        } else {
          var last := |path| - 1;
          ReadyPredecessor(p, s, path[last - 1], v);
          EnteredAlong(p, s, path[..last]);
        }
      }
    }
  }

  lemma HasInEdge(p: Plan, u: nat, v: nat)
    requires IsEdge(p.g, u, v)
    ensures InDegree(p.g, v) > 0
  {
    var e :| 0 <= e < |p.g[u]| && p.g[u][e] == v;
    OpenPositive(p.g, NoCut(p.g), u, e);
  }

  lemma AgentOnDemand(p: Plan, s: State, a: nat, c: Choice, t: State)
    requires Shape(p, s) && a <= |p.g| && PcsMoved(p, s, a, c, t) && OnDemandIdle(p, s) && s.pcs[a] != Idle
    ensures OnDemandIdle(p, t)
  {
    hide OpenFrom, Open, InDegree, NoCut, RootsFrom, IsCut, PcFollows, Out;
    forall o {:trigger t.pcs[o]} | 0 <= o < |p.g| && o < |t.pcs| && OnDemandSource(p, o) ensures t.pcs[o] == Idle {
      assert s.pcs[o] == Idle;
      if Submits(p, s, a, c, o) {
        SubmitsAlong(p, s, a, c, o);
        if a < |p.g| { HasInEdge(p, a, o); }
      }
    }
  }

  lemma AgentLinks(p: Plan, w: World, a: nat, c: Choice, x: World)
    requires LinksOk(p, w) && DR.Inv(w.d) && Shape(p, w.s) && a <= |p.g| && PcsMoved(p, w.s, a, c, x.s)
    requires w.s.pcs[a] != Idle && w.s.pcs[a] != Ended && !Draining(w, a)
    requires x == w.(s := x.s, drainer := DrainerAfter(w, SR.AgentStep(a, c)))
    requires a < |p.g| && p.deferred[a] && w.s.pcs[a] in {InBody, Waiting} ==>
      AgentGuard(w.d.slots[a], c) && x.s.pcs[a] == Storing
    ensures LinksOk(p, x)
  {
    hide DR.Inv, Linked, Shape, Submits, PcFollows, D.SlotOk, AgentGuard;
    forall v {:trigger x.s.pcs[v]} | 0 <= v < |p.g|
      ensures Linked(p.deferred[v], Draining(x, v), x.s.pcs[v], x.d.slots[v])
    {
      assert Linked(p.deferred[v], Draining(w, v), w.s.pcs[v], w.d.slots[v]);
      if v == a {
        SlotAt(w.d, a);
        if p.deferred[a] { LinkedAgent(w.d.slots[a], w.s.pcs[a], x.s.pcs[a], c, Draining(x, a)); }
        else { PlainAgent(w.s.pcs[a], x.s.pcs[a], w.d.slots[a], Draining(x, a)); }
      } else if Submits(p, w.s, a, c, v) {
        LinkedIdle(p.deferred[v], Draining(w, v), w.d.slots[v]);
        LinkedSubmitted(p.deferred[v], w.d.slots[v]);
      }
    }
  }

  /** What a submission by agent `a` means for the calling thread's claims about `b`. */
  lemma SubmittedWaits(p: Plan, w: World, a: nat, c: Choice, b: nat)
    requires LinksOk(p, w) && Inv(p, w.s) && OnDemandIdle(p, w.s) && WaitOk(p, w) && !w.wait.Submitting?
    requires a <= |p.g| && w.s.pcs[a] != Idle && w.s.pcs[a] != Ended && Shape(p, w.s) && Submits(p, w.s, a, c, b)
    requires b < |p.g| && w.s.pcs[b] == Idle
    ensures NodeWaitOk(p, w.wait, b, b in w.first, b in w.settled, true, Queued, w.d.slots[b])
  {
    hide Inv, OnDemandIdle, Linked, D.Started, BelowDeferred, Risky, Shape, Startable;
    SubmitsAlong(p, w.s, a, c, b);
    assert NodeWaitOk(p, w.wait, a, a in w.first, a in w.settled, Acting(w, a), w.s.pcs[a], w.d.slots[a]);
    assert NodeWaitOk(p, w.wait, b, b in w.first, b in w.settled, Acting(w, b), w.s.pcs[b], w.d.slots[b]);
    assert Linked(p.deferred[b], Draining(w, b), w.s.pcs[b], w.d.slots[b]);
    LinkedIdle(p.deferred[b], Draining(w, b), w.d.slots[b]);
    ValidOf(p, w.s);
    BelowNext(p, a, b);
    InvFacts(p, w.s, a);
    SubmitsFromDispatch(p, w.s, a, c, b);
    ReadyStartable(p, w.s, a, b);
    if w.wait.Recheck? && !Risky(p) { RiskyWitness(p, a, b); }
  }

  lemma ValidOf(p: Plan, s: State)
    requires Shape(p, s)
    ensures ValidPlan(p)
  {
  }

  lemma SubmitsFromDispatch(p: Plan, s: State, a: nat, c: Choice, b: nat)
    requires Shape(p, s) && a < |p.g| && Submits(p, s, a, c, b)
    ensures s.pcs[a].Dispatching? && s.pcs[a].k < |p.g[a]| && b == p.g[a][s.pcs[a].k]
  {
  }

  lemma RiskyWitness(p: Plan, u: nat, v: nat)
    requires u < |p.g| && u < |p.deferred| && p.deferred[u] && BelowDeferred(p, u) && IsEdge(p.g, u, v) && Startable(p, v)
    ensures Risky(p)
  {
  }

  /** A job whose claim on the calling thread was settled before its agent's step. */
  lemma NodeMoves(p: Plan, wait: Wait, v: nat, first: bool, settled: bool, busy: bool, pc: Pc, x: D.Slot,
                  after: bool, next: Pc)
    requires v < |p.deferred| && NodeWaitOk(p, wait, v, first, settled, busy, pc, x)
    requires (after ==> busy) && (pc == Idle <==> next == Idle) && (next == pc || busy)
    ensures NodeWaitOk(p, wait, v, first, settled, after, next, x)
  {
    hide BelowDeferred, Risky, Startable, D.Started, D.InFlight;
  }

  lemma AgentWaits(p: Plan, w: World, a: nat, c: Choice, x: World)
    requires LinksOk(p, w) && Inv(p, w.s) && OnDemandIdle(p, w.s) && WaitOk(p, w)
    requires a <= |p.g| && w.s.pcs[a] != Idle && w.s.pcs[a] != Ended && !Draining(w, a)
    requires Shape(p, w.s) && PcsMoved(p, w.s, a, c, x.s)
    requires x == w.(s := x.s, drainer := DrainerAfter(w, SR.AgentStep(a, c)))
    ensures Sized(p, x) && WaitOk(p, x)
  {
    hide Inv, OnDemandIdle, Linked, D.Started, NodeWaitOk, Shape, Submits;
    if !w.wait.Submitting? {
      assert a < |p.g|;
      NeverIdleAgain(p, w.s.pcs[a], x.s.pcs[a], p.deferred[a]);
      SubmitsSized(p, w.s, a, c);
      forall v {:trigger x.s.pcs[v]} | 0 <= v < |p.g|
        ensures NodeWaitOk(p, x.wait, v, v in x.first, v in x.settled, Acting(x, v), x.s.pcs[v], x.d.slots[v])
      {
        assert NodeWaitOk(p, w.wait, v, v in w.first, v in w.settled, Acting(w, v), w.s.pcs[v], w.d.slots[v]);
        if v != a && Submits(p, w.s, a, c, v) {
          SubmittedWaits(p, w, a, c, v);
        } else {
          NodeMoves(p, w.wait, v, v in w.first, v in w.settled, Acting(w, v), w.s.pcs[v], w.d.slots[v],
                    Acting(x, v), x.s.pcs[v]);
        }
      }
    }
  }

  lemma SubmitsSized(p: Plan, s: State, a: nat, c: Choice)
    requires Shape(p, s) && a < |p.g|
    ensures forall b: nat {:trigger Submits(p, s, a, c, b)} :: Submits(p, s, a, c, b) ==> b < |p.g|
  {
    forall b: nat {:trigger Submits(p, s, a, c, b)} | Submits(p, s, a, c, b) ensures b < |p.g| {
      SubmitsAlong(p, s, a, c, b);
    }
  }

  lemma NeverIdleAgain(p: Plan, pc: Pc, next: Pc, deferred: bool)
    requires PcFollows(deferred, pc, next)
    ensures next != Idle
  {
  }

  lemma AgentKeeps(p: Plan, w: World, a: nat, c: Choice, x: World)
    requires WorldOk(p, w) && Steps(p, w, Agent(SR.AgentStep(a, c)), x)
    ensures WorldOk(p, x)
  {
    hide DR.Inv, Inv, OnDemandIdle, LinksOk, WaitOk, Risky, Chained, Unused, Shape, SR.Steps, PcsMoved;
    if !w.unfinished {
      var step := SR.AgentStep(a, c);
      AgentActive(p, w.s, step);
      SR.StepKeeps(p, w.s, step, x.s);
      InvFacts(p, w.s, a);
      PcsMove(p, w.s, a, c, x.s);
      AgentOnDemand(p, w.s, a, c, x.s);
      if w.s.pcs[a] == InBody || w.s.pcs[a] == Waiting { StoringNext(p, w.s, a, c, x.s); }
      AgentLinks(p, w, a, c, x);
      if Threaded(w) { AgentWaits(p, w, a, c, x); }
    }
  }

  lemma AgentActive(p: Plan, s: State, step: SR.Step)
    requires Shape(p, s) && SR.Enabled(p, s, step) && step.AgentStep?
    ensures step.a <= |p.g| && s.pcs[step.a] != Idle && s.pcs[step.a] != Ended
  {
  }

  lemma StoringNext(p: Plan, s: State, a: nat, c: Choice, t: State)
    requires Shape(p, s) && SR.Enabled(p, s, SR.AgentStep(a, c)) && SR.Steps(p, s, SR.AgentStep(a, c), t)
    requires s.pcs[a] == InBody || s.pcs[a] == Waiting
    ensures !c.awaits ==> a < |t.pcs| && t.pcs[a] == Storing
  {
  }

  lemma DrainLinks(p: Plan, w: World, x: World)
    requires LinksOk(p, w) && x == w.(s := x.s) && x.s.pcs == w.s.pcs && !w.s.drain.NotDraining?
    ensures LinksOk(p, x)
  {
    hide Linked;
    forall v {:trigger x.s.pcs[v]} | 0 <= v < |p.g|
      ensures Linked(p.deferred[v], Draining(x, v), x.s.pcs[v], x.d.slots[v])
    {
      assert Linked(p.deferred[v], Draining(w, v), w.s.pcs[v], w.d.slots[v]);
      LinkedCalmer(p.deferred[v], Draining(w, v), w.s.pcs[v], w.d.slots[v]);
    }
  }

  lemma DrainWaits(p: Plan, w: World, x: World)
    requires Sized(p, w) && WaitOk(p, w) && x == w.(s := x.s) && x.s.pcs == w.s.pcs && !w.s.drain.NotDraining?
    ensures Sized(p, x) && WaitOk(p, x)
  {
    hide NodeWaitOk, D.Started;
    if !w.wait.Submitting? {
      forall v {:trigger x.s.pcs[v]} | 0 <= v < |p.g|
        ensures NodeWaitOk(p, x.wait, v, v in x.first, v in x.settled, Acting(x, v), x.s.pcs[v], x.d.slots[v])
      {
        assert NodeWaitOk(p, w.wait, v, v in w.first, v in w.settled, Acting(w, v), w.s.pcs[v], w.d.slots[v]);
        NodeMoves(p, w.wait, v, v in w.first, v in w.settled, Acting(w, v), w.s.pcs[v], w.d.slots[v],
                  Acting(x, v), x.s.pcs[v]);
      }
    }
  }

  lemma DrainKeeps(p: Plan, w: World, x: World)
    requires WorldOk(p, w) && Steps(p, w, Agent(SR.DrainStep), x)
    ensures WorldOk(p, x)
  {
    hide DR.Inv, Inv, LinksOk, WaitOk, Risky, Chained, Unused, Shape, SR.Steps, OnDemandSource;
    if !w.unfinished {
      SR.StepKeeps(p, w.s, SR.DrainStep, x.s);
      DrainPcs(p, w.s, x.s);
      DrainLinks(p, w, x);
      if Threaded(w) { DrainWaits(p, w, x); }
    }
  }

  lemma DrainPcs(p: Plan, s: State, t: State)
    requires Shape(p, s) && SR.Enabled(p, s, SR.DrainStep) && SR.Steps(p, s, SR.DrainStep, t)
    ensures t.pcs == s.pcs && !s.drain.NotDraining?
  {
    hide Open, OpenFrom, InDegree, NoCut, Roots, RootsFrom, IsRoot;
  }

  // ---- Awaiting ----

  lemma AwaitIsAgent(p: Plan, s: State, i: nat)
    requires Shape(p, s) && i < |p.g| && s.pcs[i] == InBody && p.deferred[i]
    ensures SR.Enabled(p, s, SR.AgentStep(i, Choice(Ok, true, true)))
    ensures SR.Steps(p, s, SR.AgentStep(i, Choice(Ok, true, true)), Move(SetStatus(s, i, Awaiting), i, Waiting))
  {
  }

  lemma AwaitLinks(p: Plan, w: World, i: nat, x: World)
    requires LinksOk(p, w) && DR.Inv(w.d) && Steps(p, w, Await(i), x) && p.deferred[i]
    ensures LinksOk(p, x)
  {
    hide DR.Inv, Linked, D.SlotOk, D.Can, D.After;
    SlotAt(w.d, i);
    forall v {:trigger x.s.pcs[v]} | 0 <= v < |p.g|
      ensures Linked(p.deferred[v], Draining(x, v), x.s.pcs[v], x.d.slots[v])
    {
      assert Linked(p.deferred[v], Draining(w, v), w.s.pcs[v], w.d.slots[v]);
      if v == i { LinkedLook(w.d.inline, w.d.ledger.None?, w.d.slots[i], Draining(w, i), w.s.pcs[i]); }
    }
  }

  lemma LinkedLook(inline: bool, free: bool, x: D.Slot, draining: bool, pc: Pc)
    requires D.SlotOk(x) && D.Can(inline, free, x, D.Look) && Linked(true, draining, pc, x)
    ensures Linked(true, draining, Waiting, D.After(inline, free, x, D.Look))
  {
    LinkedBody(inline, free, x, D.Look, draining, pc);
  }

  lemma LooksDeferred(p: Plan, d: DR.State, i: nat)
    requires Unused(p, d) && |d.slots| == |p.deferred| && DR.Enabled(d, DR.OnSlot(i, D.Look))
    ensures i < |p.deferred| && p.deferred[i]
  {
  }

  lemma AwaitWaits(p: Plan, w: World, i: nat, x: World)
    requires LinksOk(p, w) && DR.Inv(w.d) && WaitOk(p, w) && Steps(p, w, Await(i), x)
    ensures Sized(p, x) && WaitOk(p, x)
  {
    hide DR.Inv, D.SlotOk, D.Can, D.After, LinksOk, Shape, SR.Steps, SR.Enabled, WaitOk;
    var y := w.(d := DR.Step(w.d, DR.OnSlot(i, D.Look)));
    LinksSized(p, w);
    SlotWaits(p, w, i, D.Look, y);
    AwaitMoves(p, y, i, x);
  }

  lemma LinksSized(p: Plan, w: World)
    requires LinksOk(p, w)
    ensures Sized(p, w)
  {
  }

  lemma AwaitMoves(p: Plan, w: World, i: nat, x: World)
    requires Sized(p, w) && WaitOk(p, w) && i < |p.g| && w.s.pcs[i] == InBody
    requires x.s.pcs == w.s.pcs[i := Waiting] && x.s.drain == w.s.drain && x == w.(s := x.s)
    ensures Sized(p, x) && WaitOk(p, x)
  {
    hide NodeWaitOk, D.Started;
    if !w.wait.Submitting? {
      forall v {:trigger x.s.pcs[v]} | 0 <= v < |p.g|
        ensures NodeWaitOk(p, x.wait, v, v in x.first, v in x.settled, Acting(x, v), x.s.pcs[v], x.d.slots[v])
      {
        assert NodeWaitOk(p, w.wait, v, v in w.first, v in w.settled, Acting(w, v), w.s.pcs[v], w.d.slots[v]);
        NodeMoves(p, w.wait, v, v in w.first, v in w.settled, Acting(w, v), w.s.pcs[v], w.d.slots[v],
                  Acting(x, v), x.s.pcs[v]);
      }
    }
  }

  lemma AwaitOnDemand(p: Plan, s: State, i: nat)
    requires OnDemandIdle(p, s) && i < |p.g| && i < |s.pcs| && i < |s.nodes| && s.pcs[i] == InBody
    ensures OnDemandIdle(p, Move(SetStatus(s, i, Awaiting), i, Waiting))
  {
    hide OnDemandSource;
    var t := Move(SetStatus(s, i, Awaiting), i, Waiting);
    forall o {:trigger t.pcs[o]} | 0 <= o < |p.g| && o < |t.pcs| && OnDemandSource(p, o) ensures t.pcs[o] == Idle {
      assert s.pcs[o] == Idle;
    }
  }

  lemma AwaitKeeps(p: Plan, w: World, i: nat, x: World)
    requires WorldOk(p, w) && Steps(p, w, Await(i), x)
    ensures WorldOk(p, x)
  {
    hide DR.Inv, Inv, OnDemandIdle, LinksOk, WaitOk, Risky, Chained, Unused, Shape, SR.Steps, SR.Enabled, D.Can, D.After;
    if !w.unfinished {
      DR.StepKeeps(w.d, DR.OnSlot(i, D.Look));
      SlotUnused(p, w.d, i, D.Look);
      LooksDeferred(p, w.d, i);
      InvShape(p, w.s);
      AwaitIsAgent(p, w.s, i);
      SR.StepKeeps(p, w.s, SR.AgentStep(i, Choice(Ok, true, true)), x.s);
      AwaitOnDemand(p, w.s, i);
      AwaitLinks(p, w, i, x);
      if Threaded(w) { AwaitWaits(p, w, i, x); }
    }
  }

  // ---- The calling thread ----

  lemma StartLinks(p: Plan, d: DR.State, x: World)
    requires ValidPlan(p) && |d.slots| == |p.g| && x.s == Scheduler.Init(p)
    requires forall v {:trigger d.slots[v]} :: 0 <= v < |p.g| ==> d.slots[v].body.Waiting? && d.slots[v].leaving == 0
    requires x.d == d && x.wait == Submitting && x.settled == {} && x.rounds == 0
    ensures LinksOk(p, x) && OnDemandIdle(p, x.s) && WaitOk(p, x)
  {
    hide OnDemandSource, InDegree, Roots, RootsFrom, NoCut;
  }

  lemma StartKeeps(p: Plan, w: World, inline: bool, x: World)
    requires WorldOk(p, w) && Steps(p, w, StartRun(inline), x)
    ensures WorldOk(p, x)
  {
    hide DR.Inv, Inv, OnDemandIdle, LinksOk, WaitOk, Risky, Chained, Scheduler.Init;
    if !w.unfinished {
      DR.StepKeeps(w.d, DR.StartRun(inline));
      SR.InitHolds(p);
      StartLinks(p, x.d, x);
    }
  }

  lemma OutsideKeeps(p: Plan, w: World, act: Act, x: World)
    requires WorldOk(p, w) && Steps(p, w, act, x) && (act.BeginRun? || act.ReleaseNext? || act.EndInline?)
    ensures WorldOk(p, x)
  {
    hide DR.Inv, Inv, OnDemandIdle, LinksOk, WaitOk, Risky, Chained, Unused, JobsDone;
    if !w.unfinished {
      var a := if act.BeginRun? then DR.BeginRun else if act.ReleaseNext? then DR.ReleaseNext else DR.EndRun;
      DR.StepKeeps(w.d, a);
      UnusedOutside(p, w.d, a);
    }
  }

  lemma UnusedOutside(p: Plan, d: DR.State, a: DR.Action)
    requires Unused(p, d) && DR.Enabled(d, a) && !a.OnSlot? && !a.StartRun?
    ensures Unused(p, DR.Step(d, a)) && |DR.Step(d, a).slots| == |d.slots|
  {
    hide DR.Idle;
  }

  lemma FirstIdleWaits(p: Plan, w: World)
    requires Sized(p, w) && WaitOk(p, w) && w.wait.Submitting? && !Acting(w, |p.g|) && w.s.pcs[|p.g|] == Ended
    requires ExecutorIdle(p, w)
    ensures WaitOk(p, w.(wait := ZeroWait, first := Submitted(p, w.s)))
  {
    hide BelowDeferred, Risky, DR.Idle, Startable;
  }

  /** A finished job's agent has ended. */
  lemma FinishedEnded(x: D.Slot, draining: bool, pc: Pc)
    requires D.SlotOk(x) && Linked(true, draining, pc, x) && D.Started(x) && D.InFlight(x) == 0
    ensures x.finish.Finished? && x.body.Left? && pc == Ended && !draining
  {
    hide D.StopOk, D.OutcomeOk, D.EarlyOk, D.DeliveryOk, D.ResultOk, D.OrphanOk;
  }

  lemma NothingInFlight(p: Plan, w: World, v: nat)
    requires DR.Inv(w.d) && w.d.inFlight == 0 && LinksOk(p, w) && v < |p.g| && p.deferred[v] && D.Started(w.d.slots[v])
    ensures w.d.slots[v].finish.Finished? && w.d.slots[v].body.Left? && w.s.pcs[v] == Ended && !Acting(w, v)
    ensures D.InFlight(w.d.slots[v]) == 0
  {
    hide D.SlotOk, D.InFlight, D.Started, Linked, DR.LedgerOk, DR.AwaitedOk, DR.PhaseOk;
    DR.InFlightsZero(w.d.slots);
    assert Linked(p.deferred[v], Draining(w, v), w.s.pcs[v], w.d.slots[v]);
    FinishedEnded(w.d.slots[v], Draining(w, v), w.s.pcs[v]);
  }

  /** Only deferred jobs start in their slots. */
  lemma StartedDeferred(p: Plan, w: World, v: nat)
    requires LinksOk(p, w) && v < |p.g| && D.Started(w.d.slots[v])
    ensures p.deferred[v] && w.s.pcs[v] != Idle
  {
    assert Linked(p.deferred[v], Draining(w, v), w.s.pcs[v], w.d.slots[v]);
  }

  lemma ZeroSeenWaits(p: Plan, w: World)
    requires DR.Inv(w.d) && w.d.inFlight == 0 && LinksOk(p, w) && WaitOk(p, w) && w.wait.ZeroWait?
    ensures WaitOk(p, w.(wait := SecondWait, settled := StartedJobs(w.d)))
  {
    hide BelowDeferred, Risky, DR.Inv, D.Started, D.InFlight, Linked, Startable;
    var x := w.(wait := SecondWait, settled := StartedJobs(w.d));
    forall v {:trigger x.s.pcs[v]} | 0 <= v < |p.g|
      ensures NodeWaitOk(p, x.wait, v, v in x.first, v in x.settled, Acting(x, v), x.s.pcs[v], x.d.slots[v])
    {
      assert NodeWaitOk(p, w.wait, v, v in w.first, v in w.settled, Acting(w, v), w.s.pcs[v], w.d.slots[v]);
      if D.Started(w.d.slots[v]) {
        StartedDeferred(p, w, v);
        NothingInFlight(p, w, v);
      }
    }
  }

  lemma SecondIdleWaits(p: Plan, w: World)
    requires Sized(p, w) && WaitOk(p, w) && w.wait.SecondWait? && ExecutorIdle(p, w)
    ensures WaitOk(p, w.(wait := Recheck))
  {
    hide BelowDeferred, Risky, DR.Idle, Startable, D.InFlight;
    var x := w.(wait := Recheck);
    forall v {:trigger x.s.pcs[v]} | 0 <= v < |p.g|
      ensures NodeWaitOk(p, x.wait, v, v in x.first, v in x.settled, Acting(x, v), x.s.pcs[v], x.d.slots[v])
    {
      assert NodeWaitOk(p, w.wait, v, v in w.first, v in w.settled, Acting(w, v), w.s.pcs[v], w.d.slots[v]);
    }
  }

  /** Only a started job adds to the in-flight count. */
  lemma CountedStarted(x: D.Slot)
    requires D.SlotOk(x) && D.InFlight(x) > 0
    ensures D.Started(x)
  {
    hide D.StopOk, D.PartiesOk, D.OutcomeOk, D.DeliveryOk, D.ResultOk, D.OrphanOk;
  }

  /** A failed re-check has found a job that was started after the count was seen at zero. */
  lemma OneMoreStarted(p: Plan, w: World)
    requires Sized(p, w) && DR.Inv(w.d) && WaitOk(p, w) && w.wait.Recheck? && w.d.inFlight != 0
    ensures |w.settled| < |StartedJobs(w.d)|
  {
    hide D.SlotOk, D.InFlight, D.Started, DR.LedgerOk, DR.AwaitedOk, DR.PhaseOk, BelowDeferred, Startable, Risky;
    DR.InFlightsZero(w.d.slots);
    var i :| 0 <= i < |w.d.slots| && D.InFlight(w.d.slots[i]) != 0;
    CountedStarted(w.d.slots[i]);
    assert NodeWaitOk(p, w.wait, i, i in w.first, i in w.settled, Acting(w, i), w.s.pcs[i], w.d.slots[i]);
    Subset(w.settled + {i}, StartedJobs(w.d));
  }

  lemma FailsWaits(p: Plan, w: World)
    requires Sized(p, w) && DR.Inv(w.d) && WaitOk(p, w) && w.wait.Recheck? && w.d.inFlight != 0
    ensures WaitOk(p, w.(wait := ZeroWait, rounds := w.rounds + 1))
  {
    hide BelowDeferred, Risky, Startable, D.InFlight, D.Started, DR.Inv;
    OneMoreStarted(p, w);
    var x := w.(wait := ZeroWait, rounds := w.rounds + 1);
    forall v {:trigger x.s.pcs[v]} | 0 <= v < |p.g|
      ensures NodeWaitOk(p, x.wait, v, v in x.first, v in x.settled, Acting(x, v), x.s.pcs[v], x.d.slots[v])
    {
      assert NodeWaitOk(p, w.wait, v, v in w.first, v in w.settled, Acting(w, v), w.s.pcs[v], w.d.slots[v]);
    }
  }

  /** With nothing in flight, a slot whose agent never started or has ended leaves nothing to do on the executor. */
  lemma SlotStill(deferred: bool, draining: bool, pc: Pc, x: D.Slot)
    requires D.SlotOk(x) && Linked(deferred, draining, pc, x) && D.InFlight(x) == 0
    requires deferred ==> pc == Idle || pc == Ended
    ensures DR.Still(x) && !x.finish.Queued? && !x.finish.Finishing?
  {
    hide D.StopOk, D.OutcomeOk, D.EarlyOk, D.DeliveryOk, D.ResultOk, D.OrphanOk;
  }

  lemma AllStill(p: Plan, w: World)
    requires DR.Inv(w.d) && w.d.inFlight == 0 && LinksOk(p, w)
    requires forall v {:trigger w.s.pcs[v]} :: 0 <= v < |p.g| && p.deferred[v] ==> w.s.pcs[v] == Idle || w.s.pcs[v] == Ended
    ensures DR.Idle(w.d)
  {
    hide D.SlotOk, D.InFlight, Linked, DR.LedgerOk, DR.AwaitedOk, DR.PhaseOk;
    DR.InFlightsZero(w.d.slots);
    forall v {:trigger w.d.slots[v]} | 0 <= v < |w.d.slots|
      ensures DR.Still(w.d.slots[v]) && !w.d.slots[v].finish.Queued? && !w.d.slots[v].finish.Finishing?
    {
      assert Linked(p.deferred[v], Draining(w, v), w.s.pcs[v], w.d.slots[v]);
      SlotStill(p.deferred[v], Draining(w, v), w.s.pcs[v], w.d.slots[v]);
    }
  }

  /** The threaded run is at its re-check, no run having left a job unfinished. */
  ghost predicate AtRecheck(p: Plan, w: World) {
    WorldOk(p, w) && !w.unfinished && Threaded(w) && w.wait.Recheck? && w.d.inFlight == 0
  }

  /** Unless the graph is risky, every job is done whenever the re-check finds nothing in flight. */
  lemma RecheckDone(p: Plan, w: World)
    requires AtRecheck(p, w) && !Risky(p)
    ensures JobsDone(p, w)
  {
    hide DR.Inv, Inv, OnDemandIdle, Risky, Chained, Unused, Linked, D.Started, D.InFlight, DR.Idle, BelowDeferred, Startable;
    forall v: nat | v < |p.g| ensures !Acting(w, v) {
      assert NodeWaitOk(p, w.wait, v, v in w.first, v in w.settled, Acting(w, v), w.s.pcs[v], w.d.slots[v]);
      if Acting(w, v) { NothingInFlight(p, w, v); }
    }
    forall v {:trigger w.s.pcs[v]} | 0 <= v < |p.g| ensures w.s.pcs[v] == Idle || w.s.pcs[v] == Ended {
      assert !Acting(w, v);
    }
    AllStill(p, w);
  }

  /** A risky graph has a chain. */
  lemma RiskyChained(p: Plan)
    requires ValidPlan(p) && Risky(p)
    ensures Chained(p)
  {
    hide BelowDeferred, Startable, IsEdge;
    var u: nat, v: nat :|
      u < |p.g| && u < |p.deferred| && p.deferred[u] && BelowDeferred(p, u) && IsEdge(p.g, u, v) && Startable(p, v);
    StartableSource(p, u, v);
  }

  lemma ChainedWitness(p: Plan, u: nat)
    requires u < |p.g| && u < |p.deferred| && p.deferred[u] && BelowDeferred(p, u) && Startable(p, u)
    ensures Chained(p)
  {
  }

  lemma NoneLeaving(p: Plan, w: World, v: nat)
    requires AtRecheck(p, w) && !Chained(p) && v < |p.g|
    ensures w.d.slots[v].leaving == 0
  {
    hide DR.Inv, Inv, OnDemandIdle, Risky, Chained, Unused, Linked, D.Started, D.InFlight, BelowDeferred, Startable;
    assert NodeWaitOk(p, w.wait, v, v in w.first, v in w.settled, Acting(w, v), w.s.pcs[v], w.d.slots[v]);
    assert Linked(p.deferred[v], Draining(w, v), w.s.pcs[v], w.d.slots[v]);
    if w.d.slots[v].leaving > 0 {
      LeavingStarted(p.deferred[v], Draining(w, v), w.s.pcs[v], w.d.slots[v]);
      if v !in w.first { ChainedWitness(p, v); }
    }
  }

  lemma LeavingStarted(deferred: bool, draining: bool, pc: Pc, x: D.Slot)
    requires Linked(deferred, draining, pc, x) && x.leaving > 0
    ensures deferred && D.Started(x) && pc != Idle
  {
  }

  /** Unless a startable deferred job lies below another deferred job, the executor is idle whenever the re-check
      finds nothing in flight. */
  lemma RecheckIdle(p: Plan, w: World)
    requires AtRecheck(p, w) && !Chained(p)
    ensures ExecutorIdle(p, w)
  {
    hide WorldOk, Chained, Risky, JobsDone;
    RecheckPlan(p, w);
    if Risky(p) { RiskyChained(p); }
    RecheckDone(p, w);
    forall v {:trigger w.d.slots[v]} | 0 <= v < |w.d.slots| ensures w.d.slots[v].leaving == 0 { NoneLeaving(p, w, v); }
  }

  lemma RecheckPlan(p: Plan, w: World)
    requires AtRecheck(p, w)
    ensures ValidPlan(p) && |w.d.slots| == |p.g|
  {
  }

  lemma EndKeeps(p: Plan, w: World)
    requires WorldOk(p, w) && !w.unfinished && Threaded(w) && JobsDone(p, w) && w.d.inFlight == 0
    requires ExecutorIdle(p, w) || Chained(p)
    ensures WorldOk(p, Returned(p, w))
  {
    hide DR.Inv, Inv, OnDemandIdle, Risky, Chained, Unused, LinksOk, WaitOk, DR.Idle;
    NoneAwaited(w.d);
    DR.StepKeeps(w.d, DR.EndRun);
    UnusedOutside(p, w.d, DR.EndRun);
  }

  lemma NoneAwaited(d: DR.State)
    requires DR.Inv(d) && !d.inline
    ensures d.awaited == []
  {
    hide DR.SlotsOk, DR.CountsOk, DR.LedgerOk, DR.PhaseOk;
  }

  lemma ReturnKeeps(p: Plan, w: World, x: World)
    requires WorldOk(p, w) && Steps(p, w, Return, x)
    ensures WorldOk(p, x)
  {
    hide DR.Inv, Inv, OnDemandIdle, Risky, Chained, Unused, LinksOk, WaitOk, JobsDone;
    if Risky(p) { RiskyChained(p); }
    if !w.unfinished {
      if !Risky(p) { RecheckDone(p, w); }
      if !Chained(p) { RecheckIdle(p, w); }
      if JobsDone(p, w) { EndKeeps(p, w); }
    }
  }

  lemma PlainInFlight(x: D.Slot)
    requires D.SlotOk(x) && x.body.Waiting?
    ensures D.InFlight(x) == 0
  {
  }

  lemma NoneInFlight(p: Plan, d: DR.State)
    requires DR.Inv(d) && Unused(p, d) && |d.slots| == |p.deferred| && !SomeDeferred(p)
    ensures d.inFlight == 0
  {
    hide D.SlotOk, D.InFlight, DR.LedgerOk, DR.AwaitedOk, DR.PhaseOk;
    forall v | 0 <= v < |d.slots| ensures D.InFlight(d.slots[v]) == 0 {
      assert d.slots[v].body.Waiting?;
      PlainInFlight(d.slots[v]);
    }
    DR.InFlightsZero(d.slots);
  }

  lemma FirstIdleKeeps(p: Plan, w: World, x: World)
    requires WorldOk(p, w) && Steps(p, w, FirstIdle, x)
    ensures WorldOk(p, x)
  {
    hide DR.Inv, Inv, OnDemandIdle, Risky, Chained, Unused, Linked, WaitOk, JobsDone;
    if !w.unfinished {
      if SomeDeferred(p) {
        CallerSubmitted(p, w.s);
        FirstIdleWaits(p, w);
      } else {
        NoneInFlight(p, w.d);
        EndKeeps(p, w);
      }
    }
  }

  lemma CallerSubmitted(p: Plan, s: State)
    requires Inv(p, s)
    ensures |s.pcs| == |p.g| + 1 && s.pcs[|p.g|] != Idle
  {
    hide LocalsOk, EdgesOk, HoldsOk, OwnersOk, SettledOk, WorklistOk, FatalOk;
  }

  lemma WaitingKeeps(p: Plan, w: World, act: Act, x: World)
    requires WorldOk(p, w) && Steps(p, w, act, x) && (act.ZeroSeen? || act.SecondIdle? || act.RecheckFails?)
    ensures WorldOk(p, x)
  {
    hide DR.Inv, Inv, OnDemandIdle, Risky, Chained, Unused, Linked, WaitOk, ExecutorIdle, StartedJobs;
    if !w.unfinished {
      if act.ZeroSeen? { ZeroSeenWaits(p, w); }
      else if act.SecondIdle? { SecondIdleWaits(p, w); }
      else { FailsWaits(p, w); }
    }
  }

  // ---- Every step, every history ----

  lemma StepKeeps(p: Plan, w: World, act: Act, x: World)
    requires WorldOk(p, w) && Steps(p, w, act, x)
    ensures WorldOk(p, x)
  {
    hide WorldOk, Steps;
    match act
    case OnSlot(i, m) => SlotKeeps(p, w, i, m, x);
    case Await(i) => AwaitKeeps(p, w, i, x);
    case Agent(AgentStep(a, c)) => AgentKeeps(p, w, a, c, x);
    case Agent(DrainStep) => DrainKeeps(p, w, x);
    case StartRun(inline) => StartKeeps(p, w, inline, x);
    case FirstIdle => FirstIdleKeeps(p, w, x);
    case Return => ReturnKeeps(p, w, x);
    case ZeroSeen => WaitingKeeps(p, w, act, x);
    case SecondIdle => WaitingKeeps(p, w, act, x);
    case RecheckFails => WaitingKeeps(p, w, act, x);
    case _ => OutsideKeeps(p, w, act, x);
  }

  lemma InitHolds(p: Plan)
    requires ValidPlan(p)
    ensures WorldOk(p, Created(p))
  {
    hide DR.Inv, Scheduler.Init, Risky, Chained;
    DR.InitHolds(|p.g|);
  }

  lemma {:induction false} HistoryOk(p: Plan, worlds: seq<World>, k: nat)
    requires ValidPlan(p) && IsHistory(p, worlds) && k < |worlds|
    ensures WorldOk(p, worlds[k])
  {
    hide WorldOk, Steps, Created;
    if k == 0 {
      InitHolds(p);
    } else {
      HistoryOk(p, worlds, k - 1);
      assert Next(p, worlds[k - 1], worlds[k]);
      var act :| Steps(p, worlds[k - 1], act, worlds[k]);
      StepKeeps(p, worlds[k - 1], act, worlds[k]);
    }
  }

  lemma OccursOk(p: Plan, w: World)
    requires ValidPlan(p) && Occurs(p, w)
    ensures WorldOk(p, w)
  {
    hide WorldOk, Next;
    var worlds :| IsHistory(p, worlds) && worlds[|worlds| - 1] == w;
    HistoryOk(p, worlds, |worlds| - 1);
  }
}
