/** The rest of a job in the histories of PipelineStages: its edges, the whole job, and the calling thread. */
module PipelineEdges {
  import opened Jobs
  import opened Graphs
  import opened Scheduler
  import opened SchedulerInvariant
  import opened SchedulerSteps
  import opened SchedulerTheorems
  import D = Deferred
  import DR = DeferredRuns
  import opened PipelineRuns
  import opened PipelineSafety
  import opened PipelineStages

  // ---- Edges ----

  /** The target of an edge about to be passed still waits for it. */
  lemma TargetWaits(p: Plan, w: World, done: set<nat>, u: nat, k: nat)
    requires ValidPlan(p) && Occurs(p, w) && !w.unfinished && Threaded(w) && Stage(p, w.s, done, u, Edge(k), k)
    requires u < |p.g| && k < |p.g[u]|
    ensures var v := p.g[u][k];
      && v < |p.g| && v != u && v !in done && w.s.nodes[v].unmet >= 1
      && w.s.pcs[v] == Idle && w.s.nodes[v].status == Pending && w.s.cut[v] == 0
  {
    hide Open, OpenFrom, InDegree, NoCut, Roots, RootsFrom, IsRoot, Occurs, OnDemandSource;
    hide LocalsOk, HoldsOk, OwnersOk, SettledOk, WorklistOk, FatalOk;
    WorldInv(p, w);
    var v := p.g[u][k];
    OpenPositive(p.g, w.s.cut, u, k);
    assert w.s.nodes[v].unmet == Open(p.g, w.s.cut, v);
    LocalRecord(p, w.s, u);
    LocalRecord(p, w.s, v);
    assert Apart(OnDemandSource(p, v), v in done, w.s.nodes[v], w.s.pcs[v], w.s.cut[v], |p.g[v]|);
  }

  /** After a decrement that leaves the target waiting. */
  lemma StageDecremented(p: Plan, s: State, done: set<nat>, u: nat, k: nat, t: State)
    requires Stage(p, s, done, u, Edge(k), k) && Shape(p, t) && u < |p.g| && k < |p.g[u]|
    requires var v := p.g[u][k];
      && v < |p.g| && v != u && v !in done && s.nodes[v].unmet > 1 && s.pcs[v] == Idle && s.nodes[v].status == Pending
      && t.nodes == s.nodes[v := t.nodes[v]] && t.nodes[v].unmet == s.nodes[v].unmet - 1 && t.nodes[v].status == Pending
    requires t.pcs == s.pcs[u := Edge(k + 1)] && t.cut == s.cut[u := k + 1] && t.fatal == s.fatal && t.drain == s.drain
    ensures Stage(p, t, done, u, Edge(k + 1), k + 1)
  {
    hide OnDemandSource;
    forall v {:trigger t.pcs[v]} | 0 <= v < |p.g| && v != u
      ensures Apart(OnDemandSource(p, v), v in done, t.nodes[v], t.pcs[v], t.cut[v], |p.g[v]|)
    {
      assert Apart(OnDemandSource(p, v), v in done, s.nodes[v], s.pcs[v], s.cut[v], |p.g[v]|);
    }
  }

  /** After an edge whose target is submitted. */
  lemma StageSubmitted(p: Plan, s: State, done: set<nat>, u: nat, k: nat, t: State)
    requires Stage(p, s, done, u, Edge(k), k) && Shape(p, t) && u < |p.g| && k < |p.g[u]|
    requires var v := p.g[u][k];
      && v < |p.g| && v != u && v !in done && s.pcs[v] == Idle && !OnDemandSource(p, v) && s.cut[v] == 0
      && t.nodes == s.nodes[v := t.nodes[v]] && t.nodes[v].unmet == 0 && t.nodes[v].status == Ready
      && t.pcs == s.pcs[u := Edge(k + 1)][v := Queued]
    requires t.cut == s.cut[u := k + 1] && t.fatal == s.fatal && t.drain == s.drain
    ensures Stage(p, t, done, u, Edge(k + 1), k + 1)
  {
    hide OnDemandSource;
    forall v {:trigger t.pcs[v]} | 0 <= v < |p.g| && v != u
      ensures Apart(OnDemandSource(p, v), v in done, t.nodes[v], t.pcs[v], t.cut[v], |p.g[v]|)
    {
      assert Apart(OnDemandSource(p, v), v in done, s.nodes[v], s.pcs[v], s.cut[v], |p.g[v]|);
    }
  }

  lemma NoSource(p: Plan, u: nat, k: nat)
    requires ValidPlan(p) && u < |p.g| && k < |p.g[u]|
    ensures !OnDemandSource(p, p.g[u][k])
  {
    HasInEdge(p, u, p.g[u][k]);
  }

  lemma PassEdge(p: Plan, w: World, done: set<nat>, u: nat, k: nat, x: D.Slot, inFlight: int)
    returns (y: World)
    requires At(p, w, done, u, Edge(k), k, x, inFlight) && u < |p.g| && k < |p.g[u]|
    ensures SameWait(w, y) && At(p, y, done, u, Edge(k + 1), k + 1, x, inFlight)
  {
    hide Occurs, Apart, Stage, OnDemandSource;
    StageSized(p, w.s, done, u, Edge(k), k);
    StageShape(p, w.s, done, u, Edge(k), k);
    TargetWaits(p, w, done, u, k);
    NoSource(p, u, k);
    y := DecrementTarget(p, w, u, k);
    if w.s.nodes[p.g[u][k]].unmet > 1 {
      StageDecremented(p, w.s, done, u, k, y.s);
    } else {
      y := Submit(p, y, u, k);
      StageSubmitted(p, w.s, done, u, k, y.s);
    }
  }

  /** The flag is read and the target's count lowered. */
  lemma DecrementTarget(p: Plan, w: World, u: nat, k: nat)
    returns (y: World)
    requires ValidPlan(p) && Occurs(p, w) && !w.unfinished && Threaded(w) && Shape(p, w.s) && |w.d.slots| == |p.g|
    requires u < |p.g| && k < |p.g[u]| && w.s.pcs[u] == Edge(k) && w.s.cut[u] == k && !w.s.fatal
    requires p.g[u][k] < |p.g| && p.g[u][k] != u && w.s.nodes[p.g[u][k]].unmet >= 1 && w.s.drain.NotDraining?
    ensures Occurs(p, y) && Shape(p, y.s) && y == w.(s := y.s, drainer := u)
    ensures y.s.nodes == w.s.nodes[p.g[u][k] := y.s.nodes[p.g[u][k]]]
    ensures y.s.nodes[p.g[u][k]].unmet == w.s.nodes[p.g[u][k]].unmet - 1
    ensures y.s.nodes[p.g[u][k]].status == w.s.nodes[p.g[u][k]].status
    ensures y.s.pcs == w.s.pcs[u := if w.s.nodes[p.g[u][k]].unmet > 1 then Edge(k + 1) else Waking(k)]
    ensures y.s.cut == w.s.cut[u := k + 1] && y.s.fatal == w.s.fatal && y.s.drain == w.s.drain
  {
    hide Occurs, Inv, AgentGuard;
    var c := Choice(Ok, false, true);
    var s1 := DoEdge(p, w.s, u);
    AgentOccurs(p, w, u, c, s1);
    assert s1.pcs[u] == Decrement(k);
    var s2 := DoDecrement(p, s1, u);
    AgentOccurs(p, w.(s := s1, drainer := u), u, c, s2);
    y := w.(s := s2, drainer := u);
  }

  lemma StageShape(p: Plan, s: State, done: set<nat>, u: nat, pc: Pc, cut: nat)
    requires Stage(p, s, done, u, pc, cut)
    ensures Shape(p, s) && s.drain.NotDraining? && (u < |p.g| ==> s.cut[u] == cut)
  {
  }

  /** A target whose last edge went is made ready and submitted. */
  lemma Submit(p: Plan, w: World, u: nat, k: nat)
    returns (y: World)
    requires ValidPlan(p) && Occurs(p, w) && !w.unfinished && Threaded(w) && Shape(p, w.s) && |w.d.slots| == |p.g|
    requires u < |p.g| && w.s.pcs[u] == Waking(k) && k < |p.g[u]| && w.s.drain.NotDraining?
    requires p.g[u][k] < |p.g| && w.s.nodes[p.g[u][k]].status == Pending
    ensures Occurs(p, y) && Shape(p, y.s) && y == w.(s := y.s, drainer := u)
    ensures var v := p.g[u][k];
      && y.s.nodes == w.s.nodes[v := w.s.nodes[v].(status := Ready)]
      && y.s.pcs == w.s.pcs[u := Edge(k + 1)][v := Queued]
      && y.s.cut == w.s.cut && y.s.fatal == w.s.fatal && y.s.drain == w.s.drain
  {
    hide Occurs, Inv, AgentGuard;
    var c := Choice(Ok, false, true);
    var s3 := DoWaking(p, w.s, u);
    AgentOccurs(p, w, u, c, s3);
    var w3 := w.(s := s3, drainer := u);
    assert s3.pcs[u] == Dispatching(k);
    var s4 := DoDispatching(p, s3, u, c);
    AgentOccurs(p, w3, u, c, s4);
    y := w3.(s := s4);
    assert s4.pcs == w.s.pcs[u := Edge(k + 1)][p.g[u][k] := Queued];
  }

  /** All edges, then the agent ends. */
  lemma {:induction false} PassEdges(p: Plan, w: World, done: set<nat>, u: nat, k: nat, x: D.Slot, inFlight: int)
    returns (y: World)
    requires At(p, w, done, u, Edge(k), k, x, inFlight) && u < |p.g| && k <= |p.g[u]|
    ensures SameWait(w, y) && At(p, y, done, u, Ended, |p.g[u]|, x, inFlight)
    decreases |p.g[u]| - k
  {
    hide Occurs, Apart, OnDemandSource;
    if k < |p.g[u]| {
      y := PassEdge(p, w, done, u, k, x, inFlight);
      y := PassEdges(p, y, done, u, k + 1, x, inFlight);
    } else {
      y := AgentGo(p, w, done, u, Edge(k), k, x, inFlight, Choice(Ok, false, true), DoEdge(p, w.s, u), Ended);
    }
  }

  /** An ended agent joins the jobs that are done. */
  lemma StageDone(p: Plan, s: State, done: set<nat>, u: nat)
    requires u < |p.g| && Stage(p, s, done, u, Ended, |p.g[u]|)
    ensures Stage(p, s, done + {u}, |p.g|, Ended, 0)
  {
    hide OnDemandSource;
    forall v {:trigger s.pcs[v]} | 0 <= v < |p.g|
      ensures Apart(OnDemandSource(p, v), v in done + {u}, s.nodes[v], s.pcs[v], s.cut[v], |p.g[v]|)
    {
      if v != u { assert Apart(OnDemandSource(p, v), v in done, s.nodes[v], s.pcs[v], s.cut[v], |p.g[v]|); }
    }
  }

  /** A queued job becomes the active one. */
  lemma StageNext(p: Plan, s: State, done: set<nat>, u: nat)
    requires Stage(p, s, done, |p.g|, Ended, 0) && u < |p.g| && u !in done && s.pcs[u] == Queued
    ensures Stage(p, s, done, u, Queued, 0)
  {
    assert Apart(OnDemandSource(p, u), u in done, s.nodes[u], s.pcs[u], s.cut[u], |p.g[u]|);
  }

  // ---- Whole jobs ----

  lemma RunPlain(p: Plan, w: World, done: set<nat>, u: nat)
    returns (y: World)
    requires Between(p, w, done) && u < |p.g| && u !in done && w.s.pcs[u] == Queued && !p.deferred[u]
    ensures SameWait(w, y) && Between(p, y, done + {u})
  {
    hide Occurs, Stage;
    StageNext(p, w.s, done, u);
    SlotsSame(p, done, u);
    y := EnterBody(p, w, done, u, D.Fresh());
    y := BeginFinish(p, y, done, u, InBody, D.Fresh(), 0);
    y := PassEdges(p, y, done, u, 0, D.Fresh(), 0);
    StageDone(p, y.s, done, u);
  }

  lemma SlotsSame(p: Plan, done: set<nat>, u: nat)
    requires |p.deferred| == |p.g| && u < |p.g| && u !in done
    ensures Slots(p, done, u, D.Fresh()) == Slots(p, done, |p.g|, D.Fresh())
    ensures !p.deferred[u] ==> Slots(p, done, u, D.Fresh()) == Slots(p, done + {u}, |p.g|, D.Fresh())
    ensures p.deferred[u] ==> Slots(p, done, u, DoneSlot()) == Slots(p, done + {u}, |p.g|, D.Fresh())
  {
  }

  /** A deferred job is started and its body returns, its Completion kept. */
  lemma StartDeferred(p: Plan, w: World, done: set<nat>, u: nat)
    returns (y: World)
    requires Between(p, w, done) && u < |p.g| && u !in done && w.s.pcs[u] == Queued && p.deferred[u]
    ensures SameWait(w, y) && At(p, y, done, u, Waiting, 0, KeptSlot(), 1)
  {
    hide Occurs, Slotted;
    OpenDeferred(p, w, done, u);
    y := EnterBody(p, w, done, u, D.Fresh());
    y := RegisterDeferred(p, y, done, u);
    y := ReturnDeferred(p, y, done, u);
  }

  lemma OpenDeferred(p: Plan, w: World, done: set<nat>, u: nat)
    requires Between(p, w, done) && u < |p.g| && u !in done && u < |w.s.pcs| && w.s.pcs[u] == Queued
    ensures At(p, w, done, u, Queued, 0, D.Fresh(), 0)
  {
    hide Occurs, Stage;
    StageNext(p, w.s, done, u);
    SlotsSame(p, done, u);
  }

  /** The start of a body, up to its registration for the stop. */
  lemma RegisterDeferred(p: Plan, w: World, done: set<nat>, u: nat)
    returns (y: World)
    requires At(p, w, done, u, InBody, 0, D.Fresh(), 0) && u < |p.g| && p.deferred[u]
    ensures SameWait(w, y)
    ensures At(p, y, done, u, InBody, 0, Job(2, D.Undecided, D.Registered, D.NoHandle, D.Armed, D.NotFinished, 0), 1)
  {
    hide At;
    y := SlotGo(p, w, done, u, InBody, 0, D.Fresh(), 0, D.Check);
    y := SlotGo(p, y, done, u, InBody, 0, D.Fresh().(body := D.Passed), 0, D.Reset);
    y := SlotGo(p, y, done, u, InBody, 0, Job(2, D.Undecided, D.Prepared, D.NoHandle, D.Unregistered, D.NotFinished, 0), 0, D.Arm(D.NoTimeout));
    y := SlotGo(p, y, done, u, InBody, 0, Job(2, D.Undecided, D.Counting, D.NoHandle, D.Unregistered, D.NotFinished, 0), 0, D.Count);
    y := SlotGo(p, y, done, u, InBody, 0, Job(2, D.Undecided, D.Registering, D.NoHandle, D.Unregistered, D.NotFinished, 0), 1, D.Register);
  }

  lemma ReturnDeferred(p: Plan, w: World, done: set<nat>, u: nat)
    returns (y: World)
    requires u < |p.g| && u < |p.deferred| && p.deferred[u]
    requires At(p, w, done, u, InBody, 0, Job(2, D.Undecided, D.Registered, D.NoHandle, D.Armed, D.NotFinished, 0), 1)
    ensures SameWait(w, y) && At(p, y, done, u, Waiting, 0, KeptSlot(), 1)
  {
    hide At;
    y := SlotGo(p, w, done, u, InBody, 0, Job(2, D.Undecided, D.Registered, D.NoHandle, D.Armed, D.NotFinished, 0), 1, D.Begin);
    y := SlotGo(p, y, done, u, InBody, 0, Job(2, D.Undecided, D.InBody, D.Held, D.Armed, D.NotFinished, 0), 1, D.BodyReturns);
    y := PublishAwaiting(p, y, done, u);
    y := SlotGo(p, y, done, u, Waiting, 0, Job(2, D.Undecided, D.Arriving, D.Held, D.Armed, D.NotFinished, 0), 1, D.Arrive);
    y := SlotGo(p, y, done, u, Waiting, 0, Job(1, D.Undecided, D.Left, D.Held, D.Armed, D.NotFinished, 1), 1, D.Leave);
  }

  lemma PublishAwaiting(p: Plan, w: World, done: set<nat>, u: nat)
    returns (y: World)
    requires At(p, w, done, u, InBody, 0, Job(2, D.Undecided, D.Returned, D.Held, D.Armed, D.NotFinished, 0), 1)
    requires u < |p.g| && p.deferred[u]
    ensures SameWait(w, y)
    ensures At(p, y, done, u, Waiting, 0, Job(2, D.Undecided, D.Arriving, D.Held, D.Armed, D.NotFinished, 0), 1)
  {
    hide Occurs, Inv, Apart;
    var x := Job(2, D.Undecided, D.Returned, D.Held, D.Armed, D.NotFinished, 0);
    StageSized(p, w.s, done, u, InBody, 0);
    SlotsUpdate(p, done, u, x, D.After(false, true, x, D.Look));
    var t := Move(SetStatus(w.s, u, Awaiting), u, Waiting);
    y := w.(d := DR.Step(w.d, DR.OnSlot(u, D.Look)), s := t);
    OccursNext(p, w, Await(u), y);
    WorldInv(p, y);
    InvShape(p, t);
    StageMove(p, w.s, done, u, InBody, 0, t, Waiting);
  }

  /** A finished deferred job whose continuation has only to return to the executor. */
  function ReturningSlot(): D.Slot { DoneSlot().(leaving := 1) }

  /** The Completion of a started job is signalled, and the executor runs the job's finish to its last access. */
  lemma FinishDeferred(p: Plan, w: World, done: set<nat>, u: nat)
    returns (y: World)
    requires At(p, w, done, u, Waiting, 0, KeptSlot(), 1) && u < |p.g| && p.deferred[u] && u !in done
    ensures SameWait(w, y) && At(p, y, done, u, Ended, |p.g[u]|, ReturningSlot(), 0)
  {
    hide Occurs, Stage, Slotted;
    y := SignalDeferred(p, w, done, u);
    y := DeliverDeferred(p, y, done, u);
    var x := Handed(D.Unregistered, D.Finishing(D.ByExecutor, D.AtFinish));
    y := BeginFinish(p, y, done, u, Waiting, x, 2);
    y := PassEdges(p, y, done, u, 0, x, 2);
    y := EndDeferred(p, y, done, u);
  }

  /** And returns. */
  lemma CloseDeferred(p: Plan, w: World, done: set<nat>, u: nat)
    returns (y: World)
    requires u < |p.g| && u < |p.deferred| && p.deferred[u] && u !in done
    requires At(p, w, done, u, Ended, |p.g[u]|, ReturningSlot(), 0)
    ensures SameWait(w, y) && Between(p, y, done + {u})
  {
    hide Occurs, Stage;
    y := SlotGo(p, w, done, u, Ended, |p.g[u]|, ReturningSlot(), 0, D.Leave);
    StageDone(p, y.s, done, u);
    SlotsSame(p, done, u);
  }

  lemma SignalDeferred(p: Plan, w: World, done: set<nat>, u: nat)
    returns (y: World)
    requires At(p, w, done, u, Waiting, 0, KeptSlot(), 1) && u < |p.g| && p.deferred[u]
    ensures SameWait(w, y)
    ensures At(p, y, done, u, Waiting, 0, Job(0, D.Signalled, D.Left, D.Delivering(D.Start), D.Armed, D.NotFinished, 0), 1)
  {
    hide At;
    y := SlotGo(p, w, done, u, Waiting, 0, KeptSlot(), 1, D.Signal(Ok));
    y := SlotGo(p, y, done, u, Waiting, 0, Job(1, D.Undecided, D.Left, D.Signalling(Ok), D.Armed, D.NotFinished, 0), 1, D.Claim);
    y := SlotGo(p, y, done, u, Waiting, 0, Job(1, D.Signalled, D.Left, D.Won(Ok), D.Armed, D.NotFinished, 0), 1, D.Write);
    y := SlotGo(p, y, done, u, Waiting, 0, Job(1, D.Signalled, D.Left, D.Written, D.Armed, D.NotFinished, 0), 1, D.SignalArrives);
  }

  /** The active job's slot once the executor has taken its continuation. */
  function Handed(callback: D.Callback, finish: D.Finish): D.Slot {
    Job(0, D.Signalled, D.Left, D.Delivering(D.Uncounting), callback, finish, 0)
  }

  lemma DeliverDeferred(p: Plan, w: World, done: set<nat>, u: nat)
    returns (y: World)
    requires u < |p.g| && u < |p.deferred| && p.deferred[u]
    requires At(p, w, done, u, Waiting, 0, Job(0, D.Signalled, D.Left, D.Delivering(D.Start), D.Armed, D.NotFinished, 0), 1)
    ensures SameWait(w, y)
    ensures At(p, y, done, u, Waiting, 0, Handed(D.Unregistered, D.Finishing(D.ByExecutor, D.AtFinish)), 2)
  {
    hide At;
    var x := Job(0, D.Signalled, D.Left, D.Delivering(D.Start), D.Armed, D.NotFinished, 0);
    y := SlotGo(p, w, done, u, Waiting, 0, x, 1, D.CountDelivery(false));
    var z := Job(0, D.Signalled, D.Left, D.Delivering(D.Dispatching), D.Armed, D.NotFinished, 0);
    y := SlotGo(p, y, done, u, Waiting, 0, z, 2, D.Dispatch(false, true));
    y := ContinueDeferred(p, y, done, u);
  }

  lemma ContinueDeferred(p: Plan, w: World, done: set<nat>, u: nat)
    returns (y: World)
    requires u < |p.g| && u < |p.deferred| && p.deferred[u]
    requires At(p, w, done, u, Waiting, 0, Handed(D.Armed, D.Queued), 2)
    ensures SameWait(w, y)
    ensures At(p, y, done, u, Waiting, 0, Handed(D.Unregistered, D.Finishing(D.ByExecutor, D.AtFinish)), 2)
  {
    hide At;
    y := SlotGo(p, w, done, u, Waiting, 0, Handed(D.Armed, D.Queued), 2, D.Continue);
    y := SlotGo(p, y, done, u, Waiting, 0, Handed(D.Armed, D.Finishing(D.ByExecutor, D.AtCallback)), 2, D.DropCallback);
    y := ReleaseDeferred(p, y, done, u);
  }

  lemma ReleaseDeferred(p: Plan, w: World, done: set<nat>, u: nat)
    returns (y: World)
    requires u < |p.g| && u < |p.deferred| && p.deferred[u]
    requires At(p, w, done, u, Waiting, 0, Handed(D.Unregistered, D.Finishing(D.ByExecutor, D.AtTimer)), 2)
    ensures SameWait(w, y)
    ensures At(p, y, done, u, Waiting, 0, Handed(D.Unregistered, D.Finishing(D.ByExecutor, D.AtFinish)), 2)
  {
    hide At;
    y := SlotGo(p, w, done, u, Waiting, 0, Handed(D.Unregistered, D.Finishing(D.ByExecutor, D.AtTimer)), 2, D.DropTimer);
    y := SlotGo(p, y, done, u, Waiting, 0, Handed(D.Unregistered, D.Finishing(D.ByExecutor, D.AtOrphan)), 2, D.MarkOrphan);
  }

  lemma EndDeferred(p: Plan, w: World, done: set<nat>, u: nat)
    returns (y: World)
    requires u < |p.g| && u < |p.deferred| && p.deferred[u]
    requires At(p, w, done, u, Ended, |p.g[u]|, Handed(D.Unregistered, D.Finishing(D.ByExecutor, D.AtFinish)), 2)
    ensures SameWait(w, y) && At(p, y, done, u, Ended, |p.g[u]|, ReturningSlot(), 0)
  {
    hide At;
    var n := |p.g[u]|;
    y := SlotGo(p, w, done, u, Ended, n, Handed(D.Unregistered, D.Finishing(D.ByExecutor, D.AtFinish)), 2, D.FinishJob);
    y := UncountDeferred(p, y, done, u);
  }

  lemma UncountDeferred(p: Plan, w: World, done: set<nat>, u: nat)
    returns (y: World)
    requires u < |p.g| && u < |p.deferred| && p.deferred[u]
    requires At(p, w, done, u, Ended, |p.g[u]|, Handed(D.Unregistered, D.Finishing(D.ByExecutor, D.AtUncount)), 2)
    ensures SameWait(w, y) && At(p, y, done, u, Ended, |p.g[u]|, ReturningSlot(), 0)
  {
    hide At;
    var n := |p.g[u]|;
    y := SlotGo(p, w, done, u, Ended, n, Handed(D.Unregistered, D.Finishing(D.ByExecutor, D.AtUncount)), 2, D.EndFinish);
    y := SlotGo(p, y, done, u, Ended, n, Handed(D.Unregistered, D.Finished).(leaving := 1), 1, D.Uncount(false));
  }

  /** A queued job, deferred or not, is run to its end. */
  lemma RunJob(p: Plan, w: World, done: set<nat>, u: nat)
    returns (y: World)
    requires Between(p, w, done) && u < |p.g| && u !in done && w.s.pcs[u] == Queued
    ensures SameWait(w, y) && Between(p, y, done + {u})
  {
    hide Occurs, Stage;
    if p.deferred[u] {
      y := StartDeferred(p, w, done, u);
      y := FinishDeferred(p, y, done, u);
      y := CloseDeferred(p, y, done, u);
    } else {
      y := RunPlain(p, w, done, u);
    }
  }
}
