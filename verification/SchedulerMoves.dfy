/** The steps that change records and control points together, and the step theorem. */
module SchedulerMoves {
  import opened Jobs
  import opened Graphs
  import opened Scheduler
  import opened SchedulerInvariant
  import opened SchedulerSteps

  // ---- The worklist loop ----

  lemma PopKeepsWorklist(p: Plan, s: State)
    requires Shape(p, s) && WorklistOk(p, s) && s.drain.Pop?
    ensures Shape(p, DrainPop(s)) && WorklistOk(p, DrainPop(s))
  {
    hide Open, OpenFrom, InDegree, NoCut, Roots, RootsFrom, IsRoot, PcShape;
    var t := DrainPop(s);
    forall w | 0 <= w < |p.g| && t.nodes[w].status == Skipped
      ensures Listed(t.skipped, w)
    {
      assert Listed(s.skipped, w);
    }
  }

  lemma PopKeeps(p: Plan, s: State)
    requires Inv(p, s) && s.drain.Pop?
    ensures Inv(p, DrainPop(s))
  {
    hide Open, OpenFrom, InDegree, NoCut, Roots, RootsFrom, IsRoot;
    hide OwnersOk, HoldsOk, SettledOk, WorklistOk;
    var t := DrainPop(s);
    PopKeepsWorklist(p, s);
    SettledFacts(p, s);
    FrameKeeps(p, s, t);
    FrameKeepsSettled(p, s, t);
  }

  /** The entry being expanded is finished: all its successors are settled. */
  function ExpandDone(s: State, u: nat): State
    requires u < |s.nodes|
  {
    CountNode(s, u).(drain := Pop)
  }

  lemma DoneKeepsNodes(p: Plan, s: State, u: nat)
    requires Shape(p, s) && LocalsOk(p, s) && EdgesOk(p, s) && u < |p.g| && s.nodes[u].status == Skipped
    ensures Shape(p, ExpandDone(s, u)) && LocalsOk(p, ExpandDone(s, u)) && EdgesOk(p, ExpandDone(s, u))
  {
    hide Open, OpenFrom, InDegree, NoCut, Roots, RootsFrom, IsRoot;
  }

  lemma DoneKeepsWorklist(p: Plan, s: State, u: nat)
    requires Shape(p, s) && WorklistOk(p, s) && u < |p.g| && s.drain == Expand(u, |p.g[u]|)
    requires Shape(p, ExpandDone(s, u))
    ensures WorklistOk(p, ExpandDone(s, u)) && s.nodes[u].status == Skipped
    ensures s.skipRead > 0 && s.skipped[s.skipRead - 1] == u
  {
    hide Open, OpenFrom, InDegree, NoCut, Roots, RootsFrom, IsRoot, PcShape;
    var t := ExpandDone(s, u);
    assert s.skipped[s.skipRead - 1] == u;
    forall w | 0 <= w < |p.g| && t.nodes[w].status == Skipped
      ensures Listed(t.skipped, w)
    {
      assert Listed(s.skipped, w);
    }
  }

  lemma DoneKeeps(p: Plan, s: State, u: nat)
    requires Inv(p, s) && u < |p.g| && s.drain == Expand(u, |p.g[u]|)
    ensures Inv(p, ExpandDone(s, u))
  {
    hide Open, OpenFrom, InDegree, NoCut, Roots, RootsFrom, IsRoot;
    hide LocalsOk, EdgesOk, OwnersOk, HoldsOk, SettledOk, WorklistOk;
    var t := ExpandDone(s, u);
    assert Shape(p, t);
    DoneKeepsWorklist(p, s, u);
    DoneKeepsNodes(p, s, u);
    SettledFacts(p, s);
    FrameKeeps(p, s, t);
    FrameKeepsSettled(p, s, t);
    SumCountedUpdate(s.nodes, u, s.nodes[u].(counted := s.nodes[u].counted + 1));
  }

  lemma NextKeepsWorklist(p: Plan, s: State, u: nat, k: nat)
    requires Shape(p, s) && LocalsOk(p, s) && EdgesOk(p, s) && WorklistOk(p, s)
    requires s.drain == Expand(u, k) && k < |p.g[u]|
    ensures var t := s.(drain := Expand(u, k + 1));
            Shape(p, t) && LocalsOk(p, t) && EdgesOk(p, t) && WorklistOk(p, t)
  {
    hide Open, OpenFrom, InDegree, NoCut, Roots, RootsFrom, IsRoot, PcShape;
  }

  /** Moving on to the next successor once this one is settled. */
  lemma NextKeeps(p: Plan, s: State, u: nat, k: nat)
    requires Inv(p, s) && s.drain == Expand(u, k) && k < |p.g[u]| && Settled(s, p.g[u][k])
    ensures Inv(p, s.(drain := Expand(u, k + 1)))
  {
    hide Open, OpenFrom, InDegree, NoCut, Roots, RootsFrom, IsRoot;
    hide LocalsOk, EdgesOk, OwnersOk, HoldsOk, SettledOk, WorklistOk;
    var t := s.(drain := Expand(u, k + 1));
    NextKeepsWorklist(p, s, u, k);
    SettledFacts(p, s);
    FrameKeeps(p, s, t);
    FrameKeepsSettled(p, s, t);
  }

  lemma ExpandKeeps(p: Plan, s: State)
    requires Inv(p, s) && s.drain.Expand?
    ensures Inv(p, DrainExpand(p, s))
  {
    hide Open, OpenFrom, InDegree, NoCut, Roots, RootsFrom, IsRoot;
    hide LocalsOk, EdgesOk, OwnersOk, HoldsOk, SettledOk;
    var Expand(u, k) := s.drain;
    if k < |p.g[u]| {
      assert s.fatal by { assert s.skipped != []; }
      SkipKeeps(p, s, p.g[u][k]);
      NextKeeps(p, SkipNode(s, p.g[u][k]), u, k);
    } else {
      DoneKeeps(p, s, u);
    }
  }

  // ---- An agent changing its own node's record ----

  /** Control points at which an agent neither holds nor owes anything to another node. */
  predicate Quiet(pc: Pc) {
    pc.Claiming? || pc.InBody? || pc.Waiting? || pc.Storing? || pc.Recording? || pc == Edge(0)
  }

  predicate Active(st: Status) { st != Pending && st != Ready && st != Skipped }

  ghost predicate OwnOk(p: Plan, s: State, a: nat, nd: Node, pc: Pc)
    requires Shape(p, s)
  {
    && a < |p.g| && Quiet(s.pcs[a]) && Quiet(pc)
    && nd.unmet == s.nodes[a].unmet && nd.lastBy == s.nodes[a].lastBy
    && s.nodes[a].status != Pending && s.nodes[a].status != Skipped && Active(nd.status)
    && RecordOk(nd) && PcOk(p.optional[a], nd, pc, s.cut[a], s.fatal)
    && nd.counted >= s.nodes[a].counted
    && (s.nodes[a].outcome == None || nd.outcome == s.nodes[a].outcome)
    && s.nodes[a].status != Failed
  }

  function OwnStep(s: State, a: nat, nd: Node, pc: Pc): State
    requires a < |s.nodes| && a < |s.pcs| && nd.counted >= s.nodes[a].counted
  {
    s.(nodes := s.nodes[a := nd], pcs := s.pcs[a := pc],
       completed := s.completed + (nd.counted - s.nodes[a].counted))
  }

  lemma OwnKeepsNodes(p: Plan, s: State, a: nat, nd: Node, pc: Pc)
    requires Shape(p, s) && LocalsOk(p, s) && EdgesOk(p, s) && FatalOk(p, s) && OwnOk(p, s, a, nd, pc)
    ensures var t := OwnStep(s, a, nd, pc); Shape(p, t) && LocalsOk(p, t) && EdgesOk(p, t) && FatalOk(p, t)
  {
    hide Open, OpenFrom, InDegree, NoCut, Roots, RootsFrom, IsRoot;
    assert s.failure.Some? ==> FailureOk(p, s, s.failure.value.0, s.failure.value.1);
    LocalRecord(p, s, a);
  }

  lemma OwnKeepsWorklist(p: Plan, s: State, a: nat, nd: Node, pc: Pc)
    requires Shape(p, s) && WorklistOk(p, s) && OwnOk(p, s, a, nd, pc) && Shape(p, OwnStep(s, a, nd, pc))
    ensures WorklistOk(p, OwnStep(s, a, nd, pc))
  {
    hide Open, OpenFrom, InDegree, NoCut, Roots, RootsFrom, IsRoot, PcShape, PcOk, RecordOk;
    var t := OwnStep(s, a, nd, pc);
    forall w | 0 <= w < |p.g| && t.nodes[w].status == Skipped
      ensures Listed(t.skipped, w)
    {
      assert Listed(s.skipped, w);
    }
  }

  lemma OwnKeepsOwners(p: Plan, s: State, a: nat, nd: Node, pc: Pc)
    requires Shape(p, s) && LocalsOk(p, s) && OwnersOk(p, s) && OwnOk(p, s, a, nd, pc)
    requires Shape(p, OwnStep(s, a, nd, pc))
    ensures OwnersOk(p, OwnStep(s, a, nd, pc))
  {
    hide Open, OpenFrom, InDegree, NoCut, Roots, RootsFrom, IsRoot, PcOk, RecordOk;
    var t := OwnStep(s, a, nd, pc);
    forall w | 0 <= w < |p.g|
      ensures OwnedOk(p, t, w)
    {
      assert OwnedOk(p, s, w);
    }
  }

  lemma OwnKeepsHolds(p: Plan, s: State, a: nat, nd: Node, pc: Pc)
    requires Shape(p, s) && HoldsOk(p, s) && OwnOk(p, s, a, nd, pc) && Shape(p, OwnStep(s, a, nd, pc))
    ensures HoldsOk(p, OwnStep(s, a, nd, pc))
  {
    hide Open, OpenFrom, InDegree, NoCut, Roots, RootsFrom, IsRoot, PcOk, RecordOk;
    var t := OwnStep(s, a, nd, pc);
    forall b | 0 <= b <= |p.g|
      ensures HeldOk(p, t, b, t.pcs[b])
    {
      assert HeldOk(p, s, b, s.pcs[b]);
    }
    assert RootsIdle(p, t, t.pcs[|p.g|]);
    assert forall v :: 0 <= v < |p.g| ==> LastByOk(p, v, t.nodes[v]);
  }

  lemma OwnKeepsSettled(p: Plan, s: State, a: nat, nd: Node, pc: Pc)
    requires Shape(p, s) && SettledOk(p, s) && OwnOk(p, s, a, nd, pc) && Shape(p, OwnStep(s, a, nd, pc))
    ensures SettledOk(p, OwnStep(s, a, nd, pc))
  {
    hide Open, OpenFrom, InDegree, NoCut, Roots, RootsFrom, IsRoot, PcOk, RecordOk;
    var t := OwnStep(s, a, nd, pc);
    SettledCarries(s, t);
    forall u | 0 <= u < |p.g|
      ensures PassedOk(p, t, u)
    {
      assert PassedOk(p, s, u);
    }
    forall i | 0 <= i < |t.skipped| && Drained(t.skipRead, t.drain, i)
      ensures AllSettled(t, p.g[t.skipped[i]], 0, |p.g[t.skipped[i]]|)
    {
      assert AllSettled(s, p.g[s.skipped[i]], 0, |p.g[s.skipped[i]]|);
    }
  }

  lemma OwnKeeps(p: Plan, s: State, a: nat, nd: Node, pc: Pc)
    requires Inv(p, s) && OwnOk(p, s, a, nd, pc)
    ensures Inv(p, OwnStep(s, a, nd, pc))
  {
    hide Open, OpenFrom, InDegree, NoCut, Roots, RootsFrom, IsRoot;
    hide LocalsOk, EdgesOk, OwnersOk, HoldsOk, SettledOk, WorklistOk, FatalOk;
    OwnKeepsNodes(p, s, a, nd, pc);
    OwnKeepsWorklist(p, s, a, nd, pc);
    OwnKeepsOwners(p, s, a, nd, pc);
    OwnKeepsHolds(p, s, a, nd, pc);
    OwnKeepsSettled(p, s, a, nd, pc);
    SumCountedUpdate(s.nodes, a, nd);
  }

  // ---- Decrementing a successor ----

  lemma DecrementKeepsNodes(p: Plan, s: State, a: nat)
    requires Shape(p, s) && LocalsOk(p, s) && EdgesOk(p, s) && a < |p.g| && s.pcs[a].Decrement?
    ensures s.cut[a] == s.pcs[a].k && s.nodes[p.g[a][s.pcs[a].k]].unmet >= 1
    ensures var t := DoDecrement(p, s, a); Shape(p, t) && LocalsOk(p, t) && EdgesOk(p, t)
  {
    hide Open, OpenFrom, InDegree, NoCut, Roots, RootsFrom, IsRoot, LocalsOk, EdgesOk, PcOk;
    DecrementFinds(p, s, a);
    DecrementKeepsLocals(p, s, a);
    DecrementKeepsEdges(p, s, a);
  }

  /** A decrement finds the target's count at least one. */
  lemma DecrementFinds(p: Plan, s: State, a: nat)
    requires Shape(p, s) && LocalsOk(p, s) && EdgesOk(p, s) && a < |p.g| && s.pcs[a].Decrement?
    ensures s.cut[a] == s.pcs[a].k && s.nodes[p.g[a][s.pcs[a].k]].unmet >= 1
  {
    hide Open, OpenFrom, InDegree, NoCut, Roots, RootsFrom, IsRoot, LocalsOk;
    LocalRecord(p, s, a);
    OpenPositive(p.g, s.cut, a, s.pcs[a].k);
  }

  lemma DecrementKeepsLocals(p: Plan, s: State, a: nat)
    requires Shape(p, s) && LocalsOk(p, s) && a < |p.g| && s.pcs[a].Decrement?
    requires s.cut[a] == s.pcs[a].k && s.nodes[p.g[a][s.pcs[a].k]].unmet >= 1
    ensures var t := DoDecrement(p, s, a); Shape(p, t) && LocalsOk(p, t)
  {
    hide Open, OpenFrom, InDegree, NoCut, Roots, RootsFrom, IsRoot;
    LocalRecord(p, s, a);
    LocalRecord(p, s, p.g[a][s.pcs[a].k]);
  }

  lemma DecrementKeepsEdges(p: Plan, s: State, a: nat)
    requires Shape(p, s) && EdgesOk(p, s) && a < |p.g| && s.pcs[a].Decrement? && s.cut[a] == s.pcs[a].k
    requires Shape(p, DoDecrement(p, s, a))
    ensures EdgesOk(p, DoDecrement(p, s, a))
  {
    hide Open, OpenFrom, InDegree, NoCut, Roots, RootsFrom, IsRoot, PcShape;
    var k := s.pcs[a].k;
    forall v | 0 <= v < |p.g|
      ensures Open(p.g, s.cut, v) == Open(p.g, s.cut[a := s.cut[a] + 1], v) + (if p.g[a][k] == v then 1 else 0)
    {
      OpenAdvance(p.g, s.cut, a, v);
    }
  }

  lemma DecrementKeepsHolds(p: Plan, s: State, a: nat)
    requires Shape(p, s) && LocalsOk(p, s) && HoldsOk(p, s) && a < |p.g| && s.pcs[a].Decrement?
    requires s.cut[a] == s.pcs[a].k && s.nodes[p.g[a][s.pcs[a].k]].unmet >= 1 && Shape(p, DoDecrement(p, s, a))
    ensures HoldsOk(p, DoDecrement(p, s, a))
  {
    hide Open, OpenFrom, InDegree, NoCut, Roots, RootsFrom, IsRoot, RecordOk;
    var t := DoDecrement(p, s, a);
    var v := p.g[a][s.pcs[a].k];
    LocalRecord(p, s, v);
    assert LastByOk(p, v, s.nodes[v]);
    forall b | 0 <= b <= |p.g|
      ensures HeldOk(p, t, b, t.pcs[b])
    {
      assert HeldOk(p, s, b, s.pcs[b]);
    }
    assert RootsIdle(p, t, t.pcs[|p.g|]);
  }

  lemma DecrementKeepsOwners(p: Plan, s: State, a: nat)
    requires Shape(p, s) && OwnersOk(p, s) && HoldsOk(p, s) && a < |p.g| && s.pcs[a].Decrement?
    requires s.cut[a] == s.pcs[a].k && s.nodes[p.g[a][s.pcs[a].k]].unmet >= 1 && Shape(p, DoDecrement(p, s, a))
    requires RecordOk(s.nodes[p.g[a][s.pcs[a].k]])
    ensures OwnersOk(p, DoDecrement(p, s, a))
  {
    hide Open, OpenFrom, InDegree, NoCut, Roots, RootsFrom, IsRoot, HeldOk;
    var t := DoDecrement(p, s, a);
    assert LastByOk(p, p.g[a][s.pcs[a].k], s.nodes[p.g[a][s.pcs[a].k]]);
    forall w | 0 <= w < |p.g|
      ensures OwnedOk(p, t, w)
    {
      assert OwnedOk(p, s, w);
    }
  }

  lemma DecrementKeepsWorklist(p: Plan, s: State, a: nat)
    requires Shape(p, s) && WorklistOk(p, s) && FatalOk(p, s) && a < |p.g| && s.pcs[a].Decrement?
    requires s.cut[a] == s.pcs[a].k && Shape(p, DoDecrement(p, s, a))
    ensures WorklistOk(p, DoDecrement(p, s, a)) && FatalOk(p, DoDecrement(p, s, a))
  {
    hide Open, OpenFrom, InDegree, NoCut, Roots, RootsFrom, IsRoot, PcOk, RecordOk;
    var t := DoDecrement(p, s, a);
    forall w | 0 <= w < |p.g| && t.nodes[w].status == Skipped
      ensures Listed(t.skipped, w)
    {
      assert Listed(s.skipped, w);
    }
    assert s.failure.Some? ==> FailureOk(p, s, s.failure.value.0, s.failure.value.1);
  }

  lemma DecrementKeepsSettled(p: Plan, s: State, a: nat)
    requires Shape(p, s) && SettledOk(p, s) && a < |p.g| && s.pcs[a].Decrement?
    requires s.cut[a] == s.pcs[a].k && Shape(p, DoDecrement(p, s, a))
    ensures SettledOk(p, DoDecrement(p, s, a))
  {
    hide Open, OpenFrom, InDegree, NoCut, Roots, RootsFrom, IsRoot, PcOk, RecordOk;
    var t := DoDecrement(p, s, a);
    SettledCarries(s, t);
    forall u | 0 <= u < |p.g|
      ensures PassedOk(p, t, u)
    {
      assert PassedOk(p, s, u);
    }
    forall i | 0 <= i < |t.skipped| && Drained(t.skipRead, t.drain, i)
      ensures AllSettled(t, p.g[t.skipped[i]], 0, |p.g[t.skipped[i]]|)
    {
      assert AllSettled(s, p.g[s.skipped[i]], 0, |p.g[s.skipped[i]]|);
    }
  }

  lemma DecrementKeeps(p: Plan, s: State, a: nat)
    requires Inv(p, s) && a < |p.g| && s.pcs[a].Decrement?
    ensures s.cut[a] == s.pcs[a].k && Inv(p, DoDecrement(p, s, a))
  {
    hide Open, OpenFrom, InDegree, NoCut, Roots, RootsFrom, IsRoot;
    hide LocalsOk, EdgesOk, OwnersOk, HoldsOk, SettledOk, WorklistOk, FatalOk;
    DecrementKeepsNodes(p, s, a);
    DecrementKeepsHolds(p, s, a);
    LocalRecord(p, s, p.g[a][s.pcs[a].k]);
    DecrementKeepsOwners(p, s, a);
    DecrementKeepsWorklist(p, s, a);
    DecrementKeepsSettled(p, s, a);
    var v := p.g[a][s.pcs[a].k];
    SumCountedUpdate(s.nodes, v, DoDecrement(p, s, a).nodes[v]);
  }

  // ---- Changing the status of a held node: waking it, or rejecting it ----

  ghost predicate HandOk(p: Plan, s: State, a: nat, v: nat, nd: Node, pc: Pc)
    requires Shape(p, s)
  {
    && a <= |p.g| && v < |p.g| && PcShape(p, a, pc)
    && Held(p, a, s.pcs[a]) == Some(v) && Held(p, a, pc) == Some(v)
    && nd == s.nodes[v].(status := nd.status, counted := nd.counted) && nd.counted >= s.nodes[v].counted
    && (|| (s.pcs[a].Waking? && pc.Dispatching? && s.nodes[v].status == Pending && nd.status == Ready
            && nd.counted == s.nodes[v].counted && pc.k == s.pcs[a].k && a < |p.g|)
        || (s.pcs[a].Rejecting? && pc.RejectRecording? && s.nodes[v].status == Ready && nd.status == Failed
            && nd.counted == s.nodes[v].counted + 1))
  }

  function HandStep(s: State, a: nat, v: nat, nd: Node, pc: Pc): State
    requires v < |s.nodes| && a < |s.pcs| && nd.counted >= s.nodes[v].counted
  {
    s.(nodes := s.nodes[v := nd], pcs := s.pcs[a := pc],
       completed := s.completed + (nd.counted - s.nodes[v].counted))
  }

  lemma HandKeepsRecords(p: Plan, s: State, a: nat, v: nat, nd: Node, pc: Pc)
    requires Shape(p, s) && LocalsOk(p, s) && HandOk(p, s, a, v, nd, pc)
    requires HeldOk(p, s, a, s.pcs[a]) && LastByOk(p, v, s.nodes[v])
    ensures Shape(p, HandStep(s, a, v, nd, pc)) && LocalsOk(p, HandStep(s, a, v, nd, pc))
  {
    hide Open, OpenFrom, InDegree, NoCut, Roots, RootsFrom, IsRoot;
    LocalRecord(p, s, v);
    if a < |p.g| { LocalRecord(p, s, a); }
  }

  lemma HandKeepsNodes(p: Plan, s: State, a: nat, v: nat, nd: Node, pc: Pc)
    requires Shape(p, s) && LocalsOk(p, s) && EdgesOk(p, s) && FatalOk(p, s) && HandOk(p, s, a, v, nd, pc)
    requires HeldOk(p, s, a, s.pcs[a]) && LastByOk(p, v, s.nodes[v])
    ensures var t := HandStep(s, a, v, nd, pc); Shape(p, t) && LocalsOk(p, t) && EdgesOk(p, t) && FatalOk(p, t)
  {
    hide Open, OpenFrom, InDegree, NoCut, Roots, RootsFrom, IsRoot, LocalsOk, PcShape, Held, HeldOk;
    HandKeepsRecords(p, s, a, v, nd, pc);
    assert s.failure.Some? ==> FailureOk(p, s, s.failure.value.0, s.failure.value.1);
    HandKeepsFailure(p, s, a, v, nd, pc);
  }

  lemma HandKeepsFailure(p: Plan, s: State, a: nat, v: nat, nd: Node, pc: Pc)
    requires Shape(p, s) && LocalsOk(p, s) && FatalOk(p, s) && HandOk(p, s, a, v, nd, pc)
    requires Shape(p, HandStep(s, a, v, nd, pc))
    ensures FatalOk(p, HandStep(s, a, v, nd, pc))
  {
    hide Open, OpenFrom, InDegree, NoCut, Roots, RootsFrom, IsRoot;
    LocalRecord(p, s, v);
  }

  lemma HandKeepsHolds(p: Plan, s: State, a: nat, v: nat, nd: Node, pc: Pc)
    requires Shape(p, s) && HoldsOk(p, s) && HandOk(p, s, a, v, nd, pc) && Shape(p, HandStep(s, a, v, nd, pc))
    ensures HoldsOk(p, HandStep(s, a, v, nd, pc))
  {
    hide Open, OpenFrom, InDegree, NoCut, Roots, RootsFrom, IsRoot;
    var t := HandStep(s, a, v, nd, pc);
    assert HeldOk(p, s, a, s.pcs[a]);
    forall b | 0 <= b <= |p.g|
      ensures HeldOk(p, t, b, t.pcs[b])
    {
      assert HeldOk(p, s, b, s.pcs[b]);
    }
    assert RootsIdle(p, s, s.pcs[|p.g|]);
    assert RootsIdle(p, t, t.pcs[|p.g|]);
    assert forall w :: 0 <= w < |p.g| ==> LastByOk(p, w, t.nodes[w]);
  }

  lemma HandKeepsOwners(p: Plan, s: State, a: nat, v: nat, nd: Node, pc: Pc)
    requires Shape(p, s) && OwnersOk(p, s) && HandOk(p, s, a, v, nd, pc) && HeldOk(p, s, a, s.pcs[a])
    requires Shape(p, HandStep(s, a, v, nd, pc))
    ensures OwnersOk(p, HandStep(s, a, v, nd, pc))
  {
    hide Open, OpenFrom, InDegree, NoCut, Roots, RootsFrom, IsRoot;
    var t := HandStep(s, a, v, nd, pc);
    forall w | 0 <= w < |p.g|
      ensures OwnedOk(p, t, w)
    {
      assert OwnedOk(p, s, w);
    }
  }

  lemma HandKeepsWorklist(p: Plan, s: State, a: nat, v: nat, nd: Node, pc: Pc)
    requires Shape(p, s) && WorklistOk(p, s) && HandOk(p, s, a, v, nd, pc) && Shape(p, HandStep(s, a, v, nd, pc))
    ensures WorklistOk(p, HandStep(s, a, v, nd, pc))
  {
    hide Open, OpenFrom, InDegree, NoCut, Roots, RootsFrom, IsRoot, PcShape;
    var t := HandStep(s, a, v, nd, pc);
    forall w | 0 <= w < |p.g| && t.nodes[w].status == Skipped
      ensures Listed(t.skipped, w)
    {
      assert Listed(s.skipped, w);
    }
  }

  lemma HandKeepsSettled(p: Plan, s: State, a: nat, v: nat, nd: Node, pc: Pc)
    requires Shape(p, s) && SettledOk(p, s) && HandOk(p, s, a, v, nd, pc) && Shape(p, HandStep(s, a, v, nd, pc))
    requires s.pcs[v] == Idle
    ensures SettledOk(p, HandStep(s, a, v, nd, pc))
  {
    hide Open, OpenFrom, InDegree, NoCut, Roots, RootsFrom, IsRoot;
    var t := HandStep(s, a, v, nd, pc);
    SettledCarries(s, t);
    forall u | 0 <= u < |p.g|
      ensures PassedOk(p, t, u)
    {
      assert PassedOk(p, s, u);
    }
    forall i | 0 <= i < |t.skipped| && Drained(t.skipRead, t.drain, i)
      ensures AllSettled(t, p.g[t.skipped[i]], 0, |p.g[t.skipped[i]]|)
    {
      assert AllSettled(s, p.g[s.skipped[i]], 0, |p.g[s.skipped[i]]|);
    }
  }

  lemma HeldFacts(p: Plan, s: State, a: nat, v: nat)
    requires Shape(p, s) && HoldsOk(p, s) && a <= |p.g| && v < |p.g|
    ensures HeldOk(p, s, a, s.pcs[a]) && LastByOk(p, v, s.nodes[v])
  {
  }

  lemma HandKeeps(p: Plan, s: State, a: nat, v: nat, nd: Node, pc: Pc)
    requires Inv(p, s) && HandOk(p, s, a, v, nd, pc)
    ensures Inv(p, HandStep(s, a, v, nd, pc))
  {
    hide Open, OpenFrom, InDegree, NoCut, Roots, RootsFrom, IsRoot;
    hide LocalsOk, EdgesOk, OwnersOk, HoldsOk, SettledOk, WorklistOk, FatalOk;
    HeldFacts(p, s, a, v);
    HandKeepsNodes(p, s, a, v, nd, pc);
    HandKeepsHolds(p, s, a, v, nd, pc);
    HandKeepsOwners(p, s, a, v, nd, pc);
    HandKeepsWorklist(p, s, a, v, nd, pc);
    HandKeepsSettled(p, s, a, v, nd, pc);
    SumCountedUpdate(s.nodes, v, nd);
  }

  // ---- An accepted submission ----

  function AcceptStep(p: Plan, s: State, a: nat): State
    requires Shape(p, s) && a <= |p.g| && s.pcs[a].Dispatching? && Out(p, a)[s.pcs[a].k] < |p.g|
  {
    Move(Move(s, a, Edge(s.pcs[a].k + 1)), Out(p, a)[s.pcs[a].k], Queued)
  }

  lemma AcceptKeepsNodes(p: Plan, s: State, a: nat)
    requires Shape(p, s) && LocalsOk(p, s) && EdgesOk(p, s) && a <= |p.g| && s.pcs[a].Dispatching?
    requires HeldOk(p, s, a, s.pcs[a]) && LastByOk(p, Out(p, a)[s.pcs[a].k], s.nodes[Out(p, a)[s.pcs[a].k]])
    ensures var t := AcceptStep(p, s, a); Shape(p, t) && LocalsOk(p, t) && EdgesOk(p, t)
  {
    hide Open, OpenFrom, InDegree, NoCut, Roots, RootsFrom, IsRoot, LocalsOk, EdgesOk;
    AcceptKeepsLocals(p, s, a);
    SameEdges(p, s, AcceptStep(p, s, a));
  }

  lemma SameEdges(p: Plan, s: State, t: State)
    requires Shape(p, s) && Shape(p, t) && t.nodes == s.nodes && t.cut == s.cut
    ensures EdgesOk(p, s) ==> EdgesOk(p, t)
  {
    hide Open, Shape;
  }

  lemma AcceptKeepsShape(p: Plan, s: State, a: nat)
    requires Shape(p, s) && a <= |p.g| && s.pcs[a].Dispatching? && HeldOk(p, s, a, s.pcs[a])
    ensures Shape(p, AcceptStep(p, s, a))
  {
    hide Open, OpenFrom, InDegree, NoCut, Roots, RootsFrom, IsRoot;
  }

  lemma AcceptKeepsLocals(p: Plan, s: State, a: nat)
    requires Shape(p, s) && LocalsOk(p, s) && a <= |p.g| && s.pcs[a].Dispatching?
    requires HeldOk(p, s, a, s.pcs[a]) && LastByOk(p, Out(p, a)[s.pcs[a].k], s.nodes[Out(p, a)[s.pcs[a].k]])
    ensures var t := AcceptStep(p, s, a); Shape(p, t) && LocalsOk(p, t)
  {
    hide Open, OpenFrom, InDegree, NoCut, Roots, RootsFrom, IsRoot;
    AcceptKeepsShape(p, s, a);
    LocalRecord(p, s, Out(p, a)[s.pcs[a].k]);
    if a < |p.g| { LocalRecord(p, s, a); }
  }

  lemma AcceptKeepsHolds(p: Plan, s: State, a: nat)
    requires Shape(p, s) && HoldsOk(p, s) && a <= |p.g| && s.pcs[a].Dispatching? && HeldOk(p, s, a, s.pcs[a])
    requires Shape(p, AcceptStep(p, s, a))
    ensures HoldsOk(p, AcceptStep(p, s, a))
  {
    hide Open, OpenFrom, InDegree, NoCut, Roots, RootsFrom, IsRoot;
    var t := AcceptStep(p, s, a);
    AcceptKeepsHands(p, s, a);
    assert RootsIdle(p, s, s.pcs[|p.g|]);
    assert RootsIdle(p, t, t.pcs[|p.g|]);
    assert forall w :: 0 <= w < |p.g| ==> LastByOk(p, w, t.nodes[w]);
  }

  lemma AcceptKeepsHands(p: Plan, s: State, a: nat)
    requires Shape(p, s) && HoldsOk(p, s) && a <= |p.g| && s.pcs[a].Dispatching? && HeldOk(p, s, a, s.pcs[a])
    requires Shape(p, AcceptStep(p, s, a))
    ensures var t := AcceptStep(p, s, a); forall b {:trigger t.pcs[b]} :: 0 <= b <= |p.g| ==> HeldOk(p, t, b, t.pcs[b])
  {
    hide Open, OpenFrom, InDegree, NoCut, Roots, RootsFrom, IsRoot;
    var t := AcceptStep(p, s, a);
    var v := Out(p, a)[s.pcs[a].k];
    assert LastByOk(p, v, s.nodes[v]);
    forall b | 0 <= b <= |p.g|
      ensures HeldOk(p, t, b, t.pcs[b])
    {
      assert HeldOk(p, s, b, s.pcs[b]);
    }
  }

  lemma AcceptKeepsOwners(p: Plan, s: State, a: nat)
    requires Shape(p, s) && OwnersOk(p, s) && a <= |p.g| && s.pcs[a].Dispatching? && HeldOk(p, s, a, s.pcs[a])
    requires Shape(p, AcceptStep(p, s, a))
    ensures OwnersOk(p, AcceptStep(p, s, a))
  {
    hide Open, OpenFrom, InDegree, NoCut, Roots, RootsFrom, IsRoot;
    var t := AcceptStep(p, s, a);
    var k := s.pcs[a].k;
    assert Out(p, a)[k..] == [Out(p, a)[k]] + Out(p, a)[k + 1..];
    forall w | 0 <= w < |p.g|
      ensures OwnedOk(p, t, w)
    {
      assert OwnedOk(p, s, w);
    }
  }

  lemma AcceptKeepsSettled(p: Plan, s: State, a: nat)
    requires Shape(p, s) && SettledOk(p, s) && a <= |p.g| && s.pcs[a].Dispatching? && HeldOk(p, s, a, s.pcs[a])
    requires a < |p.g| ==> s.cut[a] == s.pcs[a].k + 1
    requires Shape(p, AcceptStep(p, s, a))
    ensures SettledOk(p, AcceptStep(p, s, a))
  {
    hide Open, OpenFrom, InDegree, NoCut, Roots, RootsFrom, IsRoot;
    var t := AcceptStep(p, s, a);
    SettledCarries(s, t);
    forall u | 0 <= u < |p.g|
      ensures PassedOk(p, t, u)
    {
      assert PassedOk(p, s, u);
    }
    forall i | 0 <= i < |t.skipped| && Drained(t.skipRead, t.drain, i)
      ensures AllSettled(t, p.g[t.skipped[i]], 0, |p.g[t.skipped[i]]|)
    {
      assert AllSettled(s, p.g[s.skipped[i]], 0, |p.g[s.skipped[i]]|);
    }
  }

  lemma AcceptKeepsFatal(p: Plan, s: State, a: nat)
    requires Shape(p, s) && FatalOk(p, s) && a <= |p.g| && s.pcs[a].Dispatching? && Out(p, a)[s.pcs[a].k] < |p.g|
    requires Shape(p, AcceptStep(p, s, a))
    ensures FatalOk(p, AcceptStep(p, s, a))
  {
    hide Open, OpenFrom, InDegree, NoCut, Roots, RootsFrom, IsRoot;
    assert s.failure.Some? ==> FailureOk(p, s, s.failure.value.0, s.failure.value.1);
  }

  lemma AcceptKeeps(p: Plan, s: State, a: nat)
    requires Inv(p, s) && a <= |p.g| && s.pcs[a].Dispatching? && Out(p, a)[s.pcs[a].k] < |p.g|
    ensures Inv(p, AcceptStep(p, s, a))
  {
    hide Open, OpenFrom, InDegree, NoCut, Roots, RootsFrom, IsRoot;
    hide LocalsOk, EdgesOk, OwnersOk, HoldsOk, SettledOk, FatalOk;
    HeldFacts(p, s, a, Out(p, a)[s.pcs[a].k]);
    if a < |p.g| { LocalRecord(p, s, a); }
    AcceptKeepsNodes(p, s, a);
    AcceptKeepsHolds(p, s, a);
    AcceptKeepsOwners(p, s, a);
    AcceptKeepsSettled(p, s, a);
    AcceptKeepsFatal(p, s, a);
  }
}
