/** Every step of the threaded run keeps the invariant. */
module SchedulerSteps {
  import opened Jobs
  import opened Graphs
  import opened Scheduler
  import opened SchedulerInvariant

  lemma {:induction false} SumCountedUpdate(nodes: seq<Node>, v: nat, nd: Node)
    requires v < |nodes|
    ensures SumCounted(nodes[v := nd]) == SumCounted(nodes) - nodes[v].counted + nd.counted
  {
    var n := |nodes| - 1;
    if v == n {
      assert nodes[v := nd][..n] == nodes[..n];
    } else {
      assert nodes[v := nd][..n] == nodes[..n][v := nd];
      SumCountedUpdate(nodes[..n], v, nd);
    }
  }

  // ---- Moving one agent, leaving every node's record alone ----

  /** What a move owes to the nodes that agent `a` made ready. */
  ghost predicate ReleasesOk(p: Plan, s: State, a: nat, pc: Pc)
    requires Shape(p, s) && a <= |p.g| && PcShape(p, a, pc)
  {
    forall v {:trigger s.nodes[v]} :: 0 <= v < |p.g| && s.nodes[v].lastBy == Some(a) ==>
      && (s.nodes[v].status == Ready && s.pcs[v] == Idle ==> WillHandle(p, a, pc, v))
      && (s.nodes[v].status == Pending && s.nodes[v].unmet == 0 ==> InDegree(p.g, v) == 0 && p.onDemand[v])
      && (s.nodes[v].status == Failed && s.pcs[v] == Idle ==> s.swept || pc.Sweeping? || pc == RejectRecording(v))
  }

  ghost predicate MoveOk(p: Plan, s: State, a: nat, pc: Pc)
    requires Shape(p, s)
  {
    && a <= |p.g| && PcShape(p, a, pc) && s.pcs[a] != Idle && pc != Idle
    && (a < |p.g| ==> PcOk(p.optional[a], s.nodes[a], pc, s.cut[a], s.fatal))
    && (a < |p.g| && s.nodes[a].status == Ready ==> pc == Claiming)
    && HeldOk(p, s, a, pc)
    && ReleasesOk(p, s, a, pc)
    && (a < |p.g| && pc.Failing? ==> AllSettled(s, p.g[a], 0, pc.k))
    && (a < |p.g| && pc.Edge? ==> AllSettled(s, p.g[a], s.cut[a], pc.k))
    && (a < |p.g| && pc.Ended? && s.nodes[a].outcome.Some? ==> AllSettled(s, p.g[a], s.cut[a], |p.g[a]|))
    && (pc.Sweeping? ==> s.fatal && SweptTo(s, pc.q))
    && (a == |p.g| ==> RootsIdle(p, s, pc))
  }

  lemma MoveKeepsOwners(p: Plan, s: State, a: nat, pc: Pc)
    requires Shape(p, s) && LocalsOk(p, s) && OwnersOk(p, s) && MoveOk(p, s, a, pc)
    requires Shape(p, Move(s, a, pc))
    ensures OwnersOk(p, Move(s, a, pc))
  {
    hide Open, OpenFrom, InDegree, NoCut, Roots, RootsFrom, IsRoot;
    var t := Move(s, a, pc);
    forall v | 0 <= v < |p.g|
      ensures OwnedOk(p, t, v)
    {
      assert OwnedOk(p, s, v);
    }
  }

  lemma MoveKeepsHolds(p: Plan, s: State, a: nat, pc: Pc)
    requires Shape(p, s) && HoldsOk(p, s) && MoveOk(p, s, a, pc) && Shape(p, Move(s, a, pc))
    ensures HoldsOk(p, Move(s, a, pc))
  {
    hide Open, OpenFrom, InDegree, NoCut, Roots, RootsFrom, IsRoot;
    var t := Move(s, a, pc);
    forall b | 0 <= b <= |p.g|
      ensures HeldOk(p, t, b, t.pcs[b])
    {
      assert HeldOk(p, s, b, if b == a then pc else s.pcs[b]);
    }
    assert RootsIdle(p, s, t.pcs[|p.g|]);
  }

  lemma MoveKeepsSettled(p: Plan, s: State, a: nat, pc: Pc)
    requires Shape(p, s) && SettledOk(p, s) && MoveOk(p, s, a, pc) && Shape(p, Move(s, a, pc))
    ensures SettledOk(p, Move(s, a, pc))
  {
    hide Open, OpenFrom, InDegree, NoCut, Roots, RootsFrom, IsRoot;
    var t := Move(s, a, pc);
    SettledCarries(s, t);
    forall u | 0 <= u < |p.g|
      ensures PassedOk(p, t, u)
    {
      assert PassedOk(p, s, u);
    }
    forall i | 0 <= i < |t.skipped| && Drained(t.skipRead, t.drain, i)
      ensures AllSettled(t, p.g[t.skipped[i]], 0, |p.g[t.skipped[i]]|)
    {
      assert AllSettled(s, p.g[s.skipped[i]], 0, |p.g[s.skipped[i]]|);
    }
  }

  /** A step that unsettles nobody preserves every claim that nodes are settled. */
  lemma SettledCarries(s: State, t: State)
    requires |s.nodes| == |t.nodes|
    requires forall v :: 0 <= v < |s.nodes| && Settled(s, v) ==> Settled(t, v)
    ensures forall out, from, k :: AllSettled(s, out, from, k) ==> AllSettled(t, out, from, k)
    ensures forall q :: SweptTo(s, q) ==> SweptTo(t, q)
  {
  }

  lemma MoveKeepsRecords(p: Plan, s: State, a: nat, pc: Pc)
    requires Shape(p, s) && LocalsOk(p, s) && EdgesOk(p, s) && MoveOk(p, s, a, pc)
    ensures Shape(p, Move(s, a, pc)) && LocalsOk(p, Move(s, a, pc)) && EdgesOk(p, Move(s, a, pc))
  {
    hide Open, OpenFrom, InDegree, NoCut, Roots, RootsFrom, IsRoot;
  }

  lemma MoveKeepsLists(p: Plan, s: State, a: nat, pc: Pc)
    requires Shape(p, s) && WorklistOk(p, s) && FatalOk(p, s) && MoveOk(p, s, a, pc) && Shape(p, Move(s, a, pc))
    ensures WorklistOk(p, Move(s, a, pc)) && FatalOk(p, Move(s, a, pc))
  {
    hide Open, OpenFrom, InDegree, NoCut, Roots, RootsFrom, IsRoot;
  }

  lemma MoveKeeps(p: Plan, s: State, a: nat, pc: Pc)
    requires Inv(p, s) && MoveOk(p, s, a, pc)
    ensures Inv(p, Move(s, a, pc))
  {
    hide Open, OpenFrom, InDegree, NoCut, Roots, RootsFrom, IsRoot;
    hide OwnersOk, HoldsOk, SettledOk, LocalsOk, EdgesOk, WorklistOk, FatalOk;
    MoveKeepsRecords(p, s, a, pc);
    MoveKeepsLists(p, s, a, pc);
    MoveKeepsOwners(p, s, a, pc);
    MoveKeepsHolds(p, s, a, pc);
    MoveKeepsSettled(p, s, a, pc);
  }

  lemma LocalRecord(p: Plan, s: State, v: nat)
    requires Shape(p, s) && LocalsOk(p, s) && v < |p.g|
    ensures RecordOk(s.nodes[v])
    ensures PcOk(p.optional[v], s.nodes[v], s.pcs[v], s.cut[v], s.fatal)
  {
  }

  // ---- Skipping ----

  lemma SkipKeepsNodes(p: Plan, s: State, v: nat)
    requires Shape(p, s) && LocalsOk(p, s) && EdgesOk(p, s) && v < |p.g|
    ensures Shape(p, SkipNode(s, v)) && LocalsOk(p, SkipNode(s, v)) && EdgesOk(p, SkipNode(s, v))
  {
    hide Open, OpenFrom, InDegree, NoCut, Roots, RootsFrom, IsRoot;
  }

  lemma SkipKeepsHolds(p: Plan, s: State, v: nat)
    requires Shape(p, s) && HoldsOk(p, s) && v < |p.g| && Shape(p, SkipNode(s, v))
    ensures HoldsOk(p, SkipNode(s, v))
  {
    hide Open, OpenFrom, InDegree, NoCut, Roots, RootsFrom, IsRoot;
    var t := SkipNode(s, v);
    forall b | 0 <= b <= |p.g|
      ensures HeldOk(p, t, b, t.pcs[b])
    {
      assert HeldOk(p, s, b, s.pcs[b]);
    }
    assert RootsIdle(p, t, t.pcs[|p.g|]);
  }

  lemma SkipKeepsOwners(p: Plan, s: State, v: nat)
    requires Shape(p, s) && OwnersOk(p, s) && v < |p.g| && Shape(p, SkipNode(s, v))
    ensures OwnersOk(p, SkipNode(s, v))
  {
    hide Open, OpenFrom, InDegree, NoCut, Roots, RootsFrom, IsRoot;
    var t := SkipNode(s, v);
    forall w | 0 <= w < |p.g|
      ensures OwnedOk(p, t, w)
    {
      assert OwnedOk(p, s, w);
    }
  }

  lemma SkipKeepsEntries(p: Plan, s: State, v: nat)
    requires Shape(p, s) && WorklistOk(p, s) && v < |p.g| && RecordOk(s.nodes[v]) && !Settled(s, v)
    ensures var t := SkipNode(s, v);
      && (forall i, j :: 0 <= i < j < |t.skipped| ==> t.skipped[i] != t.skipped[j])
      && (forall i :: 0 <= i < |t.skipped| ==>
            && t.skipped[i] < |t.nodes| && t.nodes[t.skipped[i]].status == Skipped
            && t.nodes[t.skipped[i]].counted == (if Drained(t.skipRead, t.drain, i) then 1 else 0))
  {
    hide Open, OpenFrom, InDegree, NoCut, Roots, RootsFrom, IsRoot, PcShape;
    var t := SkipNode(s, v);
    assert forall i :: 0 <= i < |s.skipped| ==> s.skipped[i] != v;
    assert forall i :: 0 <= i < |s.skipped| ==> t.skipped[i] == s.skipped[i];
    assert t.skipped[|s.skipped|] == v;
  }

  lemma SkipKeepsWorklist(p: Plan, s: State, v: nat)
    requires Shape(p, s) && WorklistOk(p, s) && v < |p.g| && RecordOk(s.nodes[v])
    requires Shape(p, SkipNode(s, v))
    ensures WorklistOk(p, SkipNode(s, v))
  {
    hide Open, OpenFrom, InDegree, NoCut, Roots, RootsFrom, IsRoot, PcShape, Drained;
    var t := SkipNode(s, v);
    if Settled(s, v) {
      DrainedSame(s, t);
      return;
    }
    SkipKeepsEntries(p, s, v);
    forall w | 0 <= w < |p.g| && t.nodes[w].status == Skipped
      ensures Listed(t.skipped, w)
    {
      assert w != v ==> Listed(s.skipped, w);
    }
  }

  lemma DrainedSame(s: State, t: State)
    requires s.skipRead == t.skipRead && (s.drain == t.drain || (s.drain.NotDraining? && t.drain.Pop?))
    ensures forall i :: Drained(s.skipRead, s.drain, i) == Drained(t.skipRead, t.drain, i)
  {
  }

  lemma SkipKeepsSettled(p: Plan, s: State, v: nat)
    requires Shape(p, s) && SettledOk(p, s) && v < |p.g| && Shape(p, SkipNode(s, v))
    ensures SettledOk(p, SkipNode(s, v))
  {
    hide Open, OpenFrom, InDegree, NoCut, Roots, RootsFrom, IsRoot;
    var t := SkipNode(s, v);
    SettledCarries(s, t);
    forall u | 0 <= u < |p.g|
      ensures PassedOk(p, t, u)
    {
      assert PassedOk(p, s, u);
    }
    forall i | 0 <= i < |t.skipped| && Drained(t.skipRead, t.drain, i)
      ensures AllSettled(t, p.g[t.skipped[i]], 0, |p.g[t.skipped[i]]|)
    {
      assert AllSettled(s, p.g[s.skipped[i]], 0, |p.g[s.skipped[i]]|);
    }
  }

  lemma SkipKeepsFatal(p: Plan, s: State, v: nat)
    requires Shape(p, s) && FatalOk(p, s) && s.fatal && v < |p.g| && Shape(p, SkipNode(s, v))
    ensures FatalOk(p, SkipNode(s, v))
  {
    assert s.failure.Some? ==> FailureOk(p, s, s.failure.value.0, s.failure.value.1);
  }

  /** skipNode() after a fatal error keeps the invariant and settles its node. */
  lemma SkipKeeps(p: Plan, s: State, v: nat)
    requires Inv(p, s) && s.fatal && v < |p.g|
    ensures Inv(p, SkipNode(s, v)) && Settled(SkipNode(s, v), v)
    ensures SkipNode(s, v).pcs == s.pcs && SkipNode(s, v).cut == s.cut && SkipNode(s, v).fatal
    ensures forall w :: 0 <= w < |p.g| && Settled(s, w) ==> Settled(SkipNode(s, v), w)
    ensures forall w :: 0 <= w < |p.g| && w != v ==> SkipNode(s, v).nodes[w] == s.nodes[w]
  {
    hide Open, OpenFrom, InDegree, NoCut, Roots, RootsFrom, IsRoot;
    hide LocalsOk, EdgesOk, OwnersOk, HoldsOk, SettledOk, WorklistOk, FatalOk;
    SkipKeepsNodes(p, s, v);
    SkipKeepsHolds(p, s, v);
    SkipKeepsOwners(p, s, v);
    assert RecordOk(s.nodes[v]) by { LocalRecord(p, s, v); }
    SkipKeepsWorklist(p, s, v);
    SkipKeepsSettled(p, s, v);
    SkipKeepsFatal(p, s, v);
    if !Settled(s, v) {
      SumCountedUpdate(s.nodes, v, s.nodes[v].(status := Skipped));
    }
  }

  // ---- Steps that move no agent and change no record but its count ----

  ghost predicate SameButCounts(s: State, t: State) {
    && |t.nodes| == |s.nodes| && t.pcs == s.pcs && t.cut == s.cut
    && (s.fatal ==> t.fatal) && (s.swept ==> t.swept)
    && forall v {:trigger t.nodes[v]} :: 0 <= v < |s.nodes| ==>
         t.nodes[v] == s.nodes[v].(counted := t.nodes[v].counted)
  }

  lemma FrameKeeps(p: Plan, s: State, t: State)
    requires Shape(p, s) && Shape(p, t) && SameButCounts(s, t)
    requires HoldsOk(p, s) && OwnersOk(p, s)
    ensures HoldsOk(p, t) && OwnersOk(p, t)
  {
    hide Open, OpenFrom, InDegree, NoCut, Roots, RootsFrom, IsRoot;
    forall w | 0 <= w < |p.g|
      ensures OwnedOk(p, t, w)
    {
      assert OwnedOk(p, s, w);
    }
    forall b | 0 <= b <= |p.g|
      ensures HeldOk(p, t, b, t.pcs[b])
    {
      assert HeldOk(p, s, b, s.pcs[b]);
    }
    assert RootsIdle(p, t, t.pcs[|p.g|]);
    assert forall v :: 0 <= v < |p.g| ==> LastByOk(p, v, t.nodes[v]);
  }

  lemma FrameKeepsSettled(p: Plan, s: State, t: State)
    requires Shape(p, s) && Shape(p, t) && SameButCounts(s, t) && SettledOk(p, s)
    requires t.skipped == s.skipped && (t.swept ==> SweptTo(s, |p.g|))
    requires forall i :: 0 <= i < |s.skipped| && Drained(t.skipRead, t.drain, i) ==>
               Drained(s.skipRead, s.drain, i) || AllSettled(s, p.g[s.skipped[i]], 0, |p.g[s.skipped[i]]|)
    requires t.drain.Expand? ==> AllSettled(s, p.g[t.drain.u], 0, t.drain.k)
    ensures SettledOk(p, t)
  {
    hide Open, OpenFrom, InDegree, NoCut, Roots, RootsFrom, IsRoot, PcShape;
    SettledCarries(s, t);
    forall w | 0 <= w < |p.g|
      ensures PassedOk(p, t, w)
    {
      assert PassedOk(p, s, w);
    }
    forall i | 0 <= i < |t.skipped| && Drained(t.skipRead, t.drain, i)
      ensures AllSettled(t, p.g[t.skipped[i]], 0, |p.g[t.skipped[i]]|)
    {
      assert AllSettled(s, p.g[s.skipped[i]], 0, |p.g[s.skipped[i]]|);
    }
  }

  lemma RecordKeeps(p: Plan, s: State, v: nat, e: PipelineError)
    requires Inv(p, s) && FailureOk(p, s, v, e)
    ensures Inv(p, RecordFailure(s, v, e)) && RecordFailure(s, v, e).fatal
  {
    hide Open, OpenFrom, InDegree, NoCut, Roots, RootsFrom, IsRoot, HoldsOk, OwnersOk, SettledOk;
    var t := RecordFailure(s, v, e);
    FrameKeeps(p, s, t);
    FrameKeepsSettled(p, s, t) by { assert SettledOk(p, s); SettledFacts(p, s); }
  }

  lemma SettledFacts(p: Plan, s: State)
    requires Shape(p, s) && SettledOk(p, s)
    ensures s.swept ==> SweptTo(s, |p.g|)
    ensures s.drain.Expand? ==> AllSettled(s, p.g[s.drain.u], 0, s.drain.k)
  {
  }

  lemma SweptKeeps(p: Plan, s: State)
    requires Inv(p, s) && s.fatal && SweptTo(s, |p.g|)
    ensures Inv(p, s.(swept := true))
  {
    hide Open, OpenFrom, InDegree, NoCut, Roots, RootsFrom, IsRoot, HoldsOk, OwnersOk, SettledOk;
    var t := s.(swept := true);
    SettledFacts(p, s);
    FrameKeeps(p, s, t);
    FrameKeepsSettled(p, s, t);
  }
}
