/** Each atomic action keeps the invariant, hence every reachable state has it. */
module SchedulerRuns {
  import opened Jobs
  import opened Graphs
  import opened Scheduler
  import opened SchedulerInvariant
  import opened SchedulerSteps
  import opened SchedulerMoves

  /** Facts about one agent and one node that the step lemmas start from. */
  lemma Facts(p: Plan, s: State, a: nat)
    requires Inv(p, s) && a <= |p.g|
    ensures HeldOk(p, s, a, s.pcs[a])
    ensures a < |p.g| ==> RecordOk(s.nodes[a]) && PassedOk(p, s, a)
    ensures a < |p.g| ==> PcOk(p.optional[a], s.nodes[a], s.pcs[a], s.cut[a], s.fatal)
    ensures a == |p.g| ==> RootsIdle(p, s, s.pcs[a])
    ensures s.pcs[a].Sweeping? ==> s.fatal && SweptTo(s, s.pcs[a].q)
    ensures s.fatal <==> s.failure.Some?
    ensures forall v :: 0 <= v < |p.g| && s.nodes[v].status == Skipped ==> s.fatal
  {
    hide Open, OpenFrom, InDegree, NoCut, Roots, RootsFrom, IsRoot;
    hide LocalsOk, EdgesOk, OwnersOk, HoldsOk, SettledOk, WorklistOk;
    if a < |p.g| { HeldFacts(p, s, a, a); } else if |p.g| > 0 { HeldFacts(p, s, a, 0); } else { HeldFactsEmpty(p, s, a); }
    if a < |p.g| { LocalRecord(p, s, a); }
    SettledAt(p, s, a);
    if a == |p.g| { RootFacts(p, s); }
    SkippedMeansFatal(p, s);
  }

  lemma HeldFactsEmpty(p: Plan, s: State, a: nat)
    requires Shape(p, s) && HoldsOk(p, s) && a <= |p.g|
    ensures HeldOk(p, s, a, s.pcs[a])
  {
  }

  lemma SettledAt(p: Plan, s: State, a: nat)
    requires Shape(p, s) && SettledOk(p, s) && a <= |p.g|
    ensures a < |p.g| ==> PassedOk(p, s, a)
    ensures s.pcs[a].Sweeping? ==> SweptTo(s, s.pcs[a].q)
  {
  }

  lemma RootFacts(p: Plan, s: State)
    requires Shape(p, s) && HoldsOk(p, s)
    ensures RootsIdle(p, s, s.pcs[|p.g|])
  {
  }

  lemma SkippedMeansFatal(p: Plan, s: State)
    requires Shape(p, s) && WorklistOk(p, s) && FatalOk(p, s)
    ensures forall v :: 0 <= v < |p.g| && s.nodes[v].status == Skipped ==> s.fatal
  {
    forall v | 0 <= v < |p.g| && s.nodes[v].status == Skipped
      ensures s.fatal
    {
      assert Listed(s.skipped, v);
    }
  }

  /** Control points from which an agent owes nothing to the nodes it made ready. */
  predicate Debtless(p: Plan, a: nat, pc: Pc) {
    match pc
    case Waking(_) | Dispatching(_) | Rejecting(_) | RejectRecording(_) | Sweeping(_) => false
    case Edge(_) => a != |p.g|
    case _ => true
  }

  lemma DebtlessReleases(p: Plan, s: State, a: nat, pc: Pc)
    requires Shape(p, s) && OwnersOk(p, s) && a <= |p.g| && PcShape(p, a, pc) && Debtless(p, a, s.pcs[a])
    ensures ReleasesOk(p, s, a, pc)
  {
    hide Open, OpenFrom, InDegree, NoCut, Roots, RootsFrom, IsRoot;
    forall v | 0 <= v < |p.g| && s.nodes[v].lastBy == Some(a)
      ensures s.nodes[v].status == Ready && s.pcs[v] == Idle ==> WillHandle(p, a, pc, v)
      ensures s.nodes[v].status == Pending && s.nodes[v].unmet == 0 ==> InDegree(p.g, v) == 0 && p.onDemand[v]
      ensures s.nodes[v].status == Failed && s.pcs[v] == Idle ==> s.swept || pc.Sweeping? || pc == RejectRecording(v)
    {
      assert OwnedOk(p, s, v);
    }
  }

  lemma QueuedKeeps(p: Plan, s: State, a: nat)
    requires Inv(p, s) && a < |p.g| && s.pcs[a].Queued?
    ensures Inv(p, DoQueued(p, s, a))
  {
    hide Open, OpenFrom, InDegree, NoCut, Roots, RootsFrom, IsRoot;
    hide LocalsOk, EdgesOk, OwnersOk, HoldsOk, SettledOk, WorklistOk, FatalOk, WillHandle;
    Facts(p, s, a);
    if s.fatal {
      SkipKeeps(p, s, a);
      var t := SkipNode(s, a);
      DebtlessReleases(p, t, a, Ended);
      MoveKeeps(p, t, a, Ended);
    } else {
      DebtlessReleases(p, s, a, Claiming);
      MoveKeeps(p, s, a, Claiming);
    }
  }

  lemma ClaimingKeeps(p: Plan, s: State, a: nat)
    requires Inv(p, s) && a < |p.g| && s.pcs[a].Claiming?
    ensures Inv(p, DoClaiming(p, s, a))
  {
    hide Open, OpenFrom, InDegree, NoCut, Roots, RootsFrom, IsRoot;
    hide LocalsOk, EdgesOk, OwnersOk, HoldsOk, SettledOk, WorklistOk, FatalOk, WillHandle;
    Facts(p, s, a);
    var nd := s.nodes[a];
    if nd.status == Ready {
      OwnKeeps(p, s, a, nd.(status := Running, entered := nd.entered + 1), InBody);
    } else {
      DebtlessReleases(p, s, a, Ended);
      MoveKeeps(p, s, a, Ended);
    }
  }

  lemma BodyKeeps(p: Plan, s: State, a: nat, c: Choice)
    requires Inv(p, s) && a < |p.g| && (s.pcs[a].InBody? || s.pcs[a].Waiting?)
    ensures Inv(p, DoBody(p, s, a, c))
  {
    hide Open, OpenFrom, InDegree, NoCut, Roots, RootsFrom, IsRoot;
    hide LocalsOk, EdgesOk, OwnersOk, HoldsOk, SettledOk, WorklistOk, FatalOk;
    Facts(p, s, a);
    if s.pcs[a] == InBody && p.deferred[a] && c.awaits {
      OwnKeeps(p, s, a, s.nodes[a].(status := Awaiting), Waiting);
    } else {
      OwnKeeps(p, s, a, s.nodes[a].(outcome := Some(c.r)), Storing);
    }
  }

  lemma StoringKeeps(p: Plan, s: State, a: nat)
    requires Inv(p, s) && a < |p.g| && s.pcs[a].Storing?
    ensures s.nodes[a].outcome.Some? && Inv(p, DoStoring(p, s, a))
  {
    hide Open, OpenFrom, InDegree, NoCut, Roots, RootsFrom, IsRoot;
    hide LocalsOk, EdgesOk, OwnersOk, HoldsOk, SettledOk, WorklistOk, FatalOk, OwnOk, OwnStep, DoStoring;
    Facts(p, s, a);
    var nd, pc := StoringOwn(p, s, a);
    OwnKeeps(p, s, a, nd, pc);
  }

  lemma StoringOwn(p: Plan, s: State, a: nat) returns (nd: Node, pc: Pc)
    requires Shape(p, s) && a < |p.g| && s.pcs[a].Storing?
    requires RecordOk(s.nodes[a]) && PcOk(p.optional[a], s.nodes[a], s.pcs[a], s.cut[a], s.fatal)
    ensures s.nodes[a].outcome.Some? && OwnOk(p, s, a, nd, pc) && DoStoring(p, s, a) == OwnStep(s, a, nd, pc)
  {
    hide PcShape, Open, InDegree, NoCut, Roots;
    var r := s.nodes[a].outcome.value;
    nd := s.nodes[a].(status := StatusOf(r), counted := s.nodes[a].counted + 1);
    pc := if FatalResult(p.optional[a], r) then Recording else Edge(0);
    assert DoStoring(p, s, a).nodes == s.nodes[a := nd];
  }

  lemma RecordingKeeps(p: Plan, s: State, a: nat)
    requires Inv(p, s) && a < |p.g| && s.pcs[a].Recording?
    ensures s.nodes[a].outcome.Some? && s.nodes[a].outcome.value.Err? && Inv(p, DoRecording(p, s, a))
  {
    hide Open, OpenFrom, InDegree, NoCut, Roots, RootsFrom, IsRoot;
    hide LocalsOk, EdgesOk, OwnersOk, HoldsOk, SettledOk, WorklistOk, FatalOk, WillHandle;
    Facts(p, s, a);
    var e := s.nodes[a].outcome.value.error;
    RecordKeeps(p, s, a, e);
    var t := RecordFailure(s, a, e);
    DebtlessReleases(p, t, a, Failing(0));
    MoveKeeps(p, t, a, Failing(0));
  }

  lemma FailingSkips(p: Plan, s: State, a: nat)
    requires Inv(p, s) && a < |p.g| && s.pcs[a].Failing? && s.pcs[a].k < |p.g[a]|
    ensures Inv(p, DoFailing(p, s, a))
  {
    hide Open, OpenFrom, InDegree, NoCut, Roots, RootsFrom, IsRoot;
    hide LocalsOk, EdgesOk, OwnersOk, HoldsOk, SettledOk, WorklistOk, FatalOk, WillHandle, IsCut, ClaimSkip;
    Facts(p, s, a);
    var k := s.pcs[a].k;
    SkipKeeps(p, s, p.g[a][k]);
    var t := SkipNode(s, p.g[a][k]);
    Facts(p, t, a);
    DebtlessReleases(p, t, a, Failing(k + 1));
    MoveKeeps(p, t, a, Failing(k + 1));
  }

  lemma FailingKeeps(p: Plan, s: State, a: nat)
    requires Inv(p, s) && a < |p.g| && s.pcs[a].Failing?
    ensures Inv(p, DoFailing(p, s, a))
  {
    hide Open, OpenFrom, InDegree, NoCut, Roots, RootsFrom, IsRoot;
    hide LocalsOk, EdgesOk, OwnersOk, HoldsOk, SettledOk, WorklistOk, FatalOk, WillHandle;
    if s.pcs[a].k < |p.g[a]| {
      FailingSkips(p, s, a);
    } else {
      Facts(p, s, a);
      DebtlessReleases(p, s, a, Ended);
      MoveKeeps(p, s, a, Ended);
    }
  }

  lemma NodeEdgeSkips(p: Plan, s: State, a: nat)
    requires Inv(p, s) && a < |p.g| && s.pcs[a].Edge? && s.pcs[a].k < |p.g[a]| && s.fatal
    ensures Inv(p, DoEdge(p, s, a))
  {
    hide Open, OpenFrom, InDegree, NoCut, Roots, RootsFrom, IsRoot;
    hide LocalsOk, EdgesOk, OwnersOk, HoldsOk, SettledOk, WorklistOk, FatalOk, WillHandle;
    var k := s.pcs[a].k;
    SkipKeeps(p, s, p.g[a][k]);
    var t := SkipNode(s, p.g[a][k]);
    Facts(p, t, a);
    DebtlessReleases(p, t, a, Edge(k + 1));
    MoveKeeps(p, t, a, Edge(k + 1));
  }

  lemma NodeEdgeKeeps(p: Plan, s: State, a: nat)
    requires Inv(p, s) && a < |p.g| && s.pcs[a].Edge?
    ensures Inv(p, DoEdge(p, s, a))
  {
    hide Open, OpenFrom, InDegree, NoCut, Roots, RootsFrom, IsRoot;
    hide LocalsOk, EdgesOk, OwnersOk, HoldsOk, SettledOk, WorklistOk, FatalOk, WillHandle;
    Facts(p, s, a);
    var k := s.pcs[a].k;
    if k == |p.g[a]| {
      DebtlessReleases(p, s, a, Ended);
      MoveKeeps(p, s, a, Ended);
    } else if s.fatal {
      NodeEdgeSkips(p, s, a);
    } else {
      DebtlessReleases(p, s, a, Decrement(k));
      MoveKeeps(p, s, a, Decrement(k));
    }
  }

  /** The submitting thread passes on the roots from index `k` once earlier ones are taken care of. */
  lemma RootReleases(p: Plan, s: State, k: nat, pc: Pc)
    requires Shape(p, s) && OwnersOk(p, s) && PcShape(p, |p.g|, pc) && s.pcs[|p.g|] == Edge(k)
    requires pc == Edge(k + 1) ==> Settled(s, Roots(p)[k])
    requires pc == Edge(k + 1) || pc == Dispatching(k) || (pc == Ended && k == |Roots(p)|)
    ensures ReleasesOk(p, s, |p.g|, pc)
  {
    hide Open, OpenFrom, InDegree, NoCut, Roots, RootsFrom, IsRoot;
    if k < |Roots(p)| { assert Roots(p)[k..] == [Roots(p)[k]] + Roots(p)[k + 1..]; }
    forall v | 0 <= v < |p.g| && s.nodes[v].lastBy == Some(|p.g|)
      ensures s.nodes[v].status == Ready && s.pcs[v] == Idle ==> WillHandle(p, |p.g|, pc, v)
      ensures s.nodes[v].status == Pending && s.nodes[v].unmet == 0 ==> InDegree(p.g, v) == 0 && p.onDemand[v]
      ensures s.nodes[v].status == Failed && s.pcs[v] == Idle ==> s.swept || pc.Sweeping? || pc == RejectRecording(v)
    {
      assert OwnedOk(p, s, v);
    }
  }

  /** A root that has not been handed over is Ready, or was skipped. */
  lemma RootStatus(p: Plan, s: State, v: nat)
    requires Shape(p, s) && v < |p.g| && OwnedOk(p, s, v) && LastByOk(p, v, s.nodes[v]) && IsRoot(p, v)
    requires s.pcs[|p.g|].Edge? && !s.swept && s.pcs[v] == Idle
    requires PcOk(p.optional[v], s.nodes[v], s.pcs[v], s.cut[v], s.fatal)
    ensures s.nodes[v].status in {Ready, Skipped} && s.nodes[v].lastBy == Some(|p.g|)
  {
    hide Open, OpenFrom, InDegree, NoCut, Roots, RootsFrom;
  }

  lemma OwnerFact(p: Plan, s: State, v: nat)
    requires Shape(p, s) && OwnersOk(p, s) && v < |p.g|
    ensures OwnedOk(p, s, v)
  {
  }

  lemma RootEdgeSkips(p: Plan, s: State)
    requires Inv(p, s) && s.pcs[|p.g|].Edge? && s.pcs[|p.g|].k < |Roots(p)| && s.fatal
    ensures Inv(p, DoEdge(p, s, |p.g|))
  {
    hide Open, OpenFrom, InDegree, NoCut, Roots, RootsFrom, IsRoot;
    hide LocalsOk, EdgesOk, OwnersOk, HoldsOk, SettledOk, WorklistOk, FatalOk, WillHandle;
    hide OwnedOk, LastByOk;
    var k := s.pcs[|p.g|].k;
    var v := Roots(p)[k];
    Facts(p, s, |p.g|);
    SkipKeeps(p, s, v);
    var t := SkipNode(s, v);
    RootReleases(p, t, k, Edge(k + 1));
    MoveKeeps(p, t, |p.g|, Edge(k + 1));
  }

  lemma RootEdgeKeeps(p: Plan, s: State)
    requires Inv(p, s) && s.pcs[|p.g|].Edge?
    ensures Inv(p, DoEdge(p, s, |p.g|))
  {
    hide Open, OpenFrom, InDegree, NoCut, Roots, RootsFrom, IsRoot;
    hide LocalsOk, EdgesOk, OwnersOk, HoldsOk, SettledOk, WorklistOk, WillHandle, OwnedOk, LastByOk;
    var a := |p.g|;
    Facts(p, s, a);
    var k := s.pcs[a].k;
    if k == |Roots(p)| {
      RootReleases(p, s, k, Ended);
      MoveKeeps(p, s, a, Ended);
    } else if s.fatal {
      RootEdgeSkips(p, s);
    } else {
      var v := Roots(p)[k];
      LocalRecord(p, s, v);
      HeldFacts(p, s, a, v);
      OwnerFact(p, s, v);
      RootStatus(p, s, v);
      RootReleases(p, s, k, Dispatching(k));
      MoveKeeps(p, s, a, Dispatching(k));
    }
  }

  lemma WakingKeeps(p: Plan, s: State, a: nat)
    requires Inv(p, s) && a < |p.g| && s.pcs[a].Waking?
    ensures Inv(p, DoWaking(p, s, a))
  {
    hide Open, OpenFrom, InDegree, NoCut, Roots, RootsFrom, IsRoot;
    hide LocalsOk, EdgesOk, OwnersOk, HoldsOk, SettledOk, WorklistOk, FatalOk, WillHandle;
    Facts(p, s, a);
    var k := s.pcs[a].k;
    var v := p.g[a][k];
    if s.nodes[v].status == Pending {
      HandKeeps(p, s, a, v, s.nodes[v].(status := Ready), Dispatching(k));
    } else {
      WakingReleases(p, s, a);
      MoveKeeps(p, s, a, Edge(k + 1));
    }
  }

  lemma WakingReleases(p: Plan, s: State, a: nat)
    requires Shape(p, s) && OwnersOk(p, s) && a < |p.g| && s.pcs[a].Waking?
    requires s.nodes[p.g[a][s.pcs[a].k]].status != Pending
    ensures ReleasesOk(p, s, a, Edge(s.pcs[a].k + 1))
  {
    hide Open, OpenFrom, InDegree, NoCut, Roots, RootsFrom, IsRoot;
    forall v | 0 <= v < |p.g| && s.nodes[v].lastBy == Some(a)
      ensures !(s.nodes[v].status == Ready && s.pcs[v] == Idle)
      ensures s.nodes[v].status == Pending && s.nodes[v].unmet == 0 ==> InDegree(p.g, v) == 0 && p.onDemand[v]
      ensures s.nodes[v].status == Failed && s.pcs[v] == Idle ==> s.swept
    {
      assert OwnedOk(p, s, v);
    }
  }

  lemma DispatchingKeeps(p: Plan, s: State, a: nat, c: Choice)
    requires Inv(p, s) && a <= |p.g| && s.pcs[a].Dispatching?
    ensures Out(p, a)[s.pcs[a].k] < |p.g| && Inv(p, DoDispatching(p, s, a, c))
  {
    hide Open, OpenFrom, InDegree, NoCut, Roots, RootsFrom, IsRoot;
    hide LocalsOk, EdgesOk, OwnersOk, HoldsOk, SettledOk, WorklistOk, FatalOk, WillHandle;
    Facts(p, s, a);
    var v := Out(p, a)[s.pcs[a].k];
    if c.accepts {
      AcceptKeeps(p, s, a);
    } else {
      RejectReleases(p, s, a, v);
      MoveKeeps(p, s, a, Rejecting(v));
    }
  }

  lemma RejectReleases(p: Plan, s: State, a: nat, v: nat)
    requires Shape(p, s) && OwnersOk(p, s) && a <= |p.g| && s.pcs[a].Dispatching?
    requires v == Out(p, a)[s.pcs[a].k] && v < |p.g|
    ensures ReleasesOk(p, s, a, Rejecting(v))
  {
    hide Open, OpenFrom, InDegree, NoCut, Roots, RootsFrom, IsRoot;
    forall w | 0 <= w < |p.g| && s.nodes[w].lastBy == Some(a)
      ensures s.nodes[w].status == Ready && s.pcs[w] == Idle ==> WillHandle(p, a, Rejecting(v), w)
      ensures s.nodes[w].status == Pending && s.nodes[w].unmet == 0 ==> InDegree(p.g, w) == 0 && p.onDemand[w]
      ensures s.nodes[w].status == Failed && s.pcs[w] == Idle ==> s.swept
    {
      assert OwnedOk(p, s, w);
    }
  }

  lemma RejectingFails(p: Plan, s: State, a: nat)
    requires Inv(p, s) && a <= |p.g| && s.pcs[a].Rejecting? && s.nodes[s.pcs[a].v].status == Ready
    ensures Inv(p, DoRejecting(p, s, a))
  {
    hide Open, OpenFrom, InDegree, NoCut, Roots, RootsFrom, IsRoot;
    hide LocalsOk, EdgesOk, OwnersOk, HoldsOk, SettledOk, WorklistOk, FatalOk, WillHandle;
    Facts(p, s, a);
    var v := s.pcs[a].v;
    var nd := s.nodes[v].(status := Failed, counted := s.nodes[v].counted + 1);
    HandKeeps(p, s, a, v, nd, RejectRecording(v));
    assert DoRejecting(p, s, a).nodes == s.nodes[v := nd];
  }

  lemma RejectingKeeps(p: Plan, s: State, a: nat)
    requires Inv(p, s) && a <= |p.g| && s.pcs[a].Rejecting?
    ensures Inv(p, DoRejecting(p, s, a))
  {
    hide Open, OpenFrom, InDegree, NoCut, Roots, RootsFrom, IsRoot;
    hide LocalsOk, EdgesOk, OwnersOk, HoldsOk, SettledOk, WorklistOk, FatalOk, WillHandle;
    Facts(p, s, a);
    var v := s.pcs[a].v;
    if s.nodes[v].status == Ready {
      RejectingFails(p, s, a);
    } else {
      ContainReleases(p, s, a, RejectRecording(v));
      MoveKeeps(p, s, a, RejectRecording(v));
    }
  }

  /** Going on with the containment of a rejection. */
  lemma ContainReleases(p: Plan, s: State, a: nat, pc: Pc)
    requires Shape(p, s) && OwnersOk(p, s) && a <= |p.g| && PcShape(p, a, pc)
    requires || (s.pcs[a].Rejecting? && pc == RejectRecording(s.pcs[a].v) && Settled(s, s.pcs[a].v))
             || (s.pcs[a].RejectRecording? && pc == Sweeping(0))
             || (s.pcs[a].Sweeping? && s.pcs[a].q < |p.g| && pc == Sweeping(s.pcs[a].q + 1) && Settled(s, s.pcs[a].q))
             || (s.pcs[a] == Sweeping(|p.g|) && s.swept)
    ensures ReleasesOk(p, s, a, pc)
  {
    hide Open, OpenFrom, InDegree, NoCut, Roots, RootsFrom, IsRoot;
    forall w | 0 <= w < |p.g| && s.nodes[w].lastBy == Some(a)
      ensures s.nodes[w].status == Ready && s.pcs[w] == Idle ==> WillHandle(p, a, pc, w)
      ensures s.nodes[w].status == Pending && s.nodes[w].unmet == 0 ==> InDegree(p.g, w) == 0 && p.onDemand[w]
      ensures s.nodes[w].status == Failed && s.pcs[w] == Idle ==> s.swept || pc.Sweeping? || pc == RejectRecording(w)
    {
      assert OwnedOk(p, s, w);
    }
  }

  lemma RejectRecordingKeeps(p: Plan, s: State, a: nat)
    requires Inv(p, s) && a <= |p.g| && s.pcs[a].RejectRecording?
    ensures Inv(p, DoRejectRecording(p, s, a))
  {
    hide Open, OpenFrom, InDegree, NoCut, Roots, RootsFrom, IsRoot;
    hide LocalsOk, EdgesOk, OwnersOk, HoldsOk, SettledOk, WorklistOk, FatalOk, WillHandle;
    Facts(p, s, a);
    var v := s.pcs[a].v;
    var t := RecordFailure(s, v, JobFailed);
    if !s.fatal {
      LocalRecord(p, s, v);
      RecordKeeps(p, s, v, JobFailed);
    }
    if a < |p.g| { LocalRecord(p, t, a); }
    ContainReleases(p, t, a, Sweeping(0));
    MoveKeeps(p, t, a, Sweeping(0));
  }

  lemma SweepingMoves(p: Plan, a: nat, t: State)
    requires Inv(p, t) && a <= |p.g| && t.pcs[a].Sweeping? && t.pcs[a].q < |p.g| && t.fatal
    requires Settled(t, t.pcs[a].q)
    ensures Inv(p, Move(t, a, Sweeping(t.pcs[a].q + 1)))
  {
    hide Open, OpenFrom, InDegree, NoCut, Roots, RootsFrom, IsRoot;
    hide LocalsOk, EdgesOk, OwnersOk, HoldsOk, SettledOk, WorklistOk, FatalOk, WillHandle;
    Facts(p, t, a);
    ContainReleases(p, t, a, Sweeping(t.pcs[a].q + 1));
    MoveKeeps(p, t, a, Sweeping(t.pcs[a].q + 1));
  }

  lemma SweepingSkips(p: Plan, s: State, a: nat)
    requires Inv(p, s) && a <= |p.g| && s.pcs[a].Sweeping? && s.pcs[a].q < |p.g|
    ensures Inv(p, DoSweeping(p, s, a))
  {
    hide Open, OpenFrom, InDegree, NoCut, Roots, RootsFrom, IsRoot;
    hide LocalsOk, EdgesOk, OwnersOk, HoldsOk, SettledOk, WorklistOk, FatalOk, WillHandle;
    Facts(p, s, a);
    var q := s.pcs[a].q;
    SkipKeeps(p, s, q);
    SweepingMoves(p, a, SkipNode(s, q));
  }

  lemma SweepingKeeps(p: Plan, s: State, a: nat)
    requires Inv(p, s) && a <= |p.g| && s.pcs[a].Sweeping?
    ensures Inv(p, DoSweeping(p, s, a))
  {
    hide Open, OpenFrom, InDegree, NoCut, Roots, RootsFrom, IsRoot;
    hide LocalsOk, EdgesOk, OwnersOk, HoldsOk, SettledOk, WorklistOk, FatalOk, WillHandle;
    Facts(p, s, a);
    var q := s.pcs[a].q;
    if q < |p.g| {
      SweepingSkips(p, s, a);
    } else {
      SweptKeeps(p, s);
      var t := s.(swept := true);
      if a < |p.g| { LocalRecord(p, t, a); }
      ContainReleases(p, t, a, Ended);
      SettledCarries(s, t);
      assert a < |p.g| ==> AllSettled(t, p.g[a], s.cut[a], |p.g[a]|);
      MoveKeeps(p, t, a, Ended);
    }
  }

  // ---- Runs ----

  datatype Step = AgentStep(a: nat, c: Choice) | DrainStep

  /** Agents that are neither waiting to be started nor done can always act, and so can the drain. */
  ghost predicate Enabled(p: Plan, s: State, step: Step)
    requires Shape(p, s)
  {
    match step
    case AgentStep(a, _) => a <= |p.g| && s.pcs[a] != Idle && s.pcs[a] != Ended
    case DrainStep => s.drain != NotDraining
  }

  /** One atomic action takes `s` to `t`. */
  ghost predicate Steps(p: Plan, s: State, step: Step, t: State)
    requires Shape(p, s) && Enabled(p, s, step)
  {
    match step
    case DrainStep => t == if s.drain.Pop? then DrainPop(s) else DrainExpand(p, s)
    case AgentStep(a, c) =>
      match s.pcs[a]
      case Queued => t == DoQueued(p, s, a)
      case Claiming => t == DoClaiming(p, s, a)
      case InBody => t == DoBody(p, s, a, c)
      case Waiting => t == DoBody(p, s, a, c)
      case Storing => s.nodes[a].outcome.Some? && t == DoStoring(p, s, a)
      case Recording =>
        s.nodes[a].outcome.Some? && s.nodes[a].outcome.value.Err? && t == DoRecording(p, s, a)
      case Failing(_) => t == DoFailing(p, s, a)
      case Edge(_) => t == DoEdge(p, s, a)
      case Decrement(_) => s.cut[a] < |p.g[a]| && t == DoDecrement(p, s, a)
      case Waking(_) => t == DoWaking(p, s, a)
      case Dispatching(_) => t == DoDispatching(p, s, a, c)
      case Rejecting(_) => t == DoRejecting(p, s, a)
      case RejectRecording(_) => t == DoRejectRecording(p, s, a)
      case Sweeping(_) => t == DoSweeping(p, s, a)
      case _ => false
  }

  lemma StepKeeps(p: Plan, s: State, step: Step, t: State)
    requires Inv(p, s) && Enabled(p, s, step) && Steps(p, s, step, t)
    ensures Inv(p, t)
  {
    hide Open, OpenFrom, InDegree, NoCut, Roots, RootsFrom, IsRoot;
    hide LocalsOk, EdgesOk, OwnersOk, HoldsOk, SettledOk, WorklistOk, FatalOk;
    hide DoQueued, DoClaiming, DoBody, DoStoring, DoRecording, DoFailing, DoEdge, DoDecrement, DoWaking;
    hide DoDispatching, DoRejecting, DoRejectRecording, DoSweeping, DrainPop, DrainExpand;
    match step
    case DrainStep =>
      if s.drain.Pop? { PopKeeps(p, s); } else { ExpandKeeps(p, s); }
    case AgentStep(a, c) =>
      match s.pcs[a]
      case Queued => QueuedKeeps(p, s, a);
      case Claiming => ClaimingKeeps(p, s, a);
      case InBody => BodyKeeps(p, s, a, c);
      case Waiting => BodyKeeps(p, s, a, c);
      case Storing => StoringKeeps(p, s, a);
      case Recording => RecordingKeeps(p, s, a);
      case Failing(_) => FailingKeeps(p, s, a);
      case Edge(_) => if a < |p.g| { NodeEdgeKeeps(p, s, a); } else { RootEdgeKeeps(p, s); }
      case Decrement(_) => DecrementKeeps(p, s, a);
      case Waking(_) => WakingKeeps(p, s, a);
      case Dispatching(_) => DispatchingKeeps(p, s, a, c);
      case Rejecting(_) => RejectingKeeps(p, s, a);
      case RejectRecording(_) => RejectRecordingKeeps(p, s, a);
      case Sweeping(_) => SweepingKeeps(p, s, a);
  }

  lemma SumCountedZero(nodes: seq<Node>)
    requires forall v :: 0 <= v < |nodes| ==> nodes[v].counted == 0
    ensures SumCounted(nodes) == 0
  {
  }

  lemma InitHolds(p: Plan)
    requires ValidPlan(p)
    ensures Inv(p, Init(p))
  {
    hide LocalsOk, EdgesOk, HoldsOk, OwnersOk, Roots, RootsFrom, OpenFrom, Open, PcShape;
    var s := Init(p);
    SumCountedZero(s.nodes);
    InitShape(p);
    InitLocals(p);
    InitHands(p);
    InitOwners(p);
  }

  lemma InitShape(p: Plan)
    requires ValidPlan(p)
    ensures Shape(p, Init(p))
  {
    hide OpenFrom, Open, Roots, RootsFrom;
    var s := Init(p);
    forall a | 0 <= a <= |p.g|
      ensures PcShape(p, a, s.pcs[a])
    {
    }
  }

  lemma InitLocals(p: Plan)
    requires ValidPlan(p) && Shape(p, Init(p))
    ensures LocalsOk(p, Init(p)) && EdgesOk(p, Init(p))
  {
    hide OpenFrom, Open, Roots, RootsFrom, PcShape;
  }

  lemma InitHands(p: Plan)
    requires ValidPlan(p) && Shape(p, Init(p))
    ensures HoldsOk(p, Init(p))
  {
    hide OpenFrom, Open, Roots, RootsFrom, PcShape;
  }

  lemma InitOwners(p: Plan)
    requires ValidPlan(p) && Shape(p, Init(p))
    ensures OwnersOk(p, Init(p))
  {
    hide OpenFrom, Open, RootsFrom, PcShape;
    var s := Init(p);
    assert Roots(p)[0..] == Roots(p);
    forall v | 0 <= v < |p.g|
      ensures OwnedOk(p, s, v)
    {
    }
  }

  /** A finite run: the states it passes and the actions between them. */
  ghost predicate IsRun(p: Plan, states: seq<State>, steps: seq<Step>)
    requires ValidPlan(p)
  {
    && |states| == |steps| + 1 && states[0] == Init(p)
    && forall i :: 0 <= i < |steps| ==>
         Shape(p, states[i]) && Enabled(p, states[i], steps[i]) && Steps(p, states[i], steps[i], states[i + 1])
  }

  lemma {:induction false} RunInv(p: Plan, states: seq<State>, steps: seq<Step>, i: nat)
    requires ValidPlan(p) && IsRun(p, states, steps) && i < |states|
    ensures Inv(p, states[i])
  {
    hide Inv, Steps;
    if i == 0 {
      InitHolds(p);
    } else {
      RunInv(p, states, steps, i - 1);
      StepKeeps(p, states[i - 1], steps[i - 1], states[i]);
    }
  }
}
