/** Building histories of a threaded run node by node: which worlds follow when one job after another is run, and a
    deferred one is started and later finished. */
module PipelineStages {
  import opened Jobs
  import opened Graphs
  import opened Scheduler
  import opened SchedulerInvariant
  import opened SchedulerSteps
  import opened SchedulerTheorems
  import SR = SchedulerRuns
  import D = Deferred
  import DR = DeferredRuns
  import opened PipelineRuns
  import opened PipelineSafety

  lemma OccursNext(p: Plan, w: World, act: Act, x: World)
    requires Occurs(p, w) && Steps(p, w, act, x)
    ensures Occurs(p, x)
  {
    hide Steps, Created;
    var worlds :| IsHistory(p, worlds) && worlds[|worlds| - 1] == w;
    var longer := worlds + [x];
    assert Next(p, w, x);
    forall k | 0 <= k < |longer| - 1 ensures Next(p, longer[k], longer[k + 1]) {
      if k < |worlds| - 1 { assert Next(p, worlds[k], worlds[k + 1]); }
    }
    assert IsHistory(p, longer);
  }

  // ---- Where a run stands between two jobs ----

  /** The slots when the jobs in `done` have finished and `u`'s slot is `x`. */
  function Slots(p: Plan, done: set<nat>, u: nat, x: D.Slot): (slots: seq<D.Slot>)
    ensures |slots| == |p.deferred|
  {
    seq(|p.deferred|, i requires 0 <= i < |p.deferred| =>
      if i == u then x else if i in done && p.deferred[i] then DoneSlot() else D.Fresh())
  }

  /** A deferred job's slot between the moves of the histories below. */
  function Job(parties: int, outcome: D.Outcome, body: D.Body, handle: D.Handle, callback: D.Callback, finish: D.Finish,
               leaving: nat): D.Slot {
    D.Slot(outcome, parties, false, false, Ok, false, false, body, handle, callback, D.Off, finish, leaving,
           if outcome.Undecided? then D.NoClaim else D.BySignal(Ok), false,
           if finish.Finishing? || finish.Finished? then 1 else 0,
           if D.At(D.Fresh().(finish := finish), D.AtUncount) || finish.Finished? then Some(Ok) else None)
  }

  function DoneSlot(): D.Slot { Job(0, D.Signalled, D.Left, D.Gone, D.Unregistered, D.Finished, 0) }

  /** The body has returned and its Completion is kept. */
  function KeptSlot(): D.Slot { Job(1, D.Undecided, D.Left, D.Held, D.Armed, D.NotFinished, 0) }

  function Slotted(p: Plan, done: set<nat>, u: nat, x: D.Slot, inFlight: int): DR.State {
    DR.State(DR.Active, false, inFlight, 0, None, [], Slots(p, done, u, x))
  }

  /** A node before or after its job, as its dependency count says. */
  predicate Apart(source: bool, done: bool, nd: Node, pc: Pc, cut: nat, out: nat) {
    if done then pc == Ended && cut == out
    else if nd.unmet == 0 && !source then cut == 0 && pc == Queued && nd.status == Ready
    else cut == 0 && pc == Idle && nd.status == Pending
  }

  /** The jobs in `done` have finished, `u`'s agent is at `pc` with `cut` edges passed, and nobody else is on the way. */
  ghost predicate Stage(p: Plan, s: State, done: set<nat>, u: nat, pc: Pc, cut: nat) {
    && Shape(p, s) && !s.fatal && s.drain.NotDraining? && u <= |p.g| && u !in done && |p.g| !in done
    && s.pcs[|p.g|] == Ended && s.pcs[u] == pc && (u < |p.g| ==> s.cut[u] == cut)
    && forall v {:trigger s.pcs[v]} {:trigger s.nodes[v]} :: 0 <= v < |p.g| && v != u ==>
         Apart(OnDemandSource(p, v), v in done, s.nodes[v], s.pcs[v], s.cut[v], |p.g[v]|)
  }

  ghost predicate At(p: Plan, w: World, done: set<nat>, u: nat, pc: Pc, cut: nat, x: D.Slot, inFlight: int) {
    && Occurs(p, w) && ValidPlan(p) && !w.unfinished && Stage(p, w.s, done, u, pc, cut)
    && w.d == Slotted(p, done, u, x, inFlight)
  }

  /** Between two jobs. */
  ghost predicate Between(p: Plan, w: World, done: set<nat>) {
    At(p, w, done, |p.g|, Ended, 0, D.Fresh(), 0)
  }

  /** The calling thread is where it was. */
  predicate SameWait(w: World, x: World) { x.wait == w.wait && x.first == w.first && x.threaded == w.threaded }

  // ---- Moves of the active job's slot ----

  lemma SlotsUpdate(p: Plan, done: set<nat>, u: nat, x: D.Slot, y: D.Slot)
    requires u < |p.deferred|
    ensures Slots(p, done, u, x)[u := y] == Slots(p, done, u, y)
  {
  }

  lemma SlotGo(p: Plan, w: World, done: set<nat>, u: nat, pc: Pc, cut: nat, x: D.Slot, inFlight: int, m: D.Move)
    returns (y: World)
    requires At(p, w, done, u, pc, cut, x, inFlight) && u < |p.g| && p.deferred[u]
    requires D.Can(false, true, x, m) && !m.TakeListed? && !m.CountOrphan? && !m.List? && !m.RecordRelease?
    requires m.MarkOrphan? ==> !x.outcome.Stopped?
    requires m.Check? ==> pc == InBody
    requires m.Look? ==> !x.outcome.Undecided?
    requires m.FinishJob? ==> pc == Ended
    ensures SameWait(w, y) && At(p, y, done, u, pc, cut, D.After(false, true, x, m), inFlight + D.InFlightChange(m))
  {
    hide D.Can, D.After, Occurs, Stage;
    StageSized(p, w.s, done, u, pc, cut);
    SlotsUpdate(p, done, u, x, D.After(false, true, x, m));
    y := w.(d := DR.Step(w.d, DR.OnSlot(u, m)));
    OccursNext(p, w, OnSlot(u, m), y);
  }

  lemma StageSized(p: Plan, s: State, done: set<nat>, u: nat, pc: Pc, cut: nat)
    requires Stage(p, s, done, u, pc, cut)
    ensures ValidPlan(p) && |s.pcs| == |p.g| + 1 && |s.nodes| == |p.g| && u <= |p.g| && s.pcs[u] == pc && !s.fatal
    ensures s.drain.NotDraining?
  {
  }

  // ---- Steps of the active job's agent ----

  lemma WorldInv(p: Plan, w: World)
    requires ValidPlan(p) && Occurs(p, w) && !w.unfinished && Active(w)
    ensures Inv(p, w.s) && DR.Inv(w.d) && |w.d.slots| == |p.g| && LinksOk(p, w)
  {
    hide Inv, DR.Inv, Occurs, OnDemandIdle, LinksOk, WaitOk, Unused, Risky, Chained;
    OccursOk(p, w);
  }

  lemma AgentOccurs(p: Plan, w: World, a: nat, c: Choice, t: State)
    requires ValidPlan(p) && Occurs(p, w) && !w.unfinished && Threaded(w) && Shape(p, w.s) && |w.d.slots| == |p.g|
    requires w.s.drain.NotDraining?
    requires SR.Enabled(p, w.s, SR.AgentStep(a, c)) && SR.Steps(p, w.s, SR.AgentStep(a, c), t)
    requires a < |p.g| && p.deferred[a] && w.s.pcs[a] in {InBody, Waiting} ==> AgentGuard(w.d.slots[a], c)
    ensures Occurs(p, w.(s := t, drainer := a)) && Inv(p, t) && Shape(p, t)
  {
    hide Occurs, SR.Steps, Inv, AgentGuard;
    var x := w.(s := t, drainer := a);
    OccursNext(p, w, Agent(SR.AgentStep(a, c)), x);
    WorldInv(p, x);
    InvShape(p, t);
  }

  /** A step of the active agent that changes no other node. */
  lemma StageMove(p: Plan, s: State, done: set<nat>, u: nat, pc: Pc, cut: nat, t: State, next: Pc)
    requires Stage(p, s, done, u, pc, cut) && Shape(p, t) && u < |p.g|
    requires t.pcs == s.pcs[u := next] && t.cut == s.cut && t.fatal == s.fatal && t.drain == s.drain
    requires t.nodes == s.nodes[u := t.nodes[u]]
    ensures Stage(p, t, done, u, next, cut)
  {
    hide OnDemandSource;
    forall v {:trigger t.pcs[v]} | 0 <= v < |p.g| && v != u
      ensures Apart(OnDemandSource(p, v), v in done, t.nodes[v], t.pcs[v], t.cut[v], |p.g[v]|)
    {
      assert Apart(OnDemandSource(p, v), v in done, s.nodes[v], s.pcs[v], s.cut[v], |p.g[v]|);
    }
  }

  lemma AgentGo(p: Plan, w: World, done: set<nat>, u: nat, pc: Pc, cut: nat, x: D.Slot, inFlight: int,
                c: Choice, t: State, next: Pc)
    returns (y: World)
    requires At(p, w, done, u, pc, cut, x, inFlight) && u < |p.g|
    requires SR.Enabled(p, w.s, SR.AgentStep(u, c)) && SR.Steps(p, w.s, SR.AgentStep(u, c), t)
    requires p.deferred[u] && pc in {InBody, Waiting} ==> AgentGuard(x, c)
    requires t.pcs == w.s.pcs[u := next] && t.cut == w.s.cut && t.fatal == w.s.fatal && t.drain == w.s.drain
    requires |t.nodes| == |w.s.nodes| && t.nodes == w.s.nodes[u := t.nodes[u]]
    ensures SameWait(w, y) && y.s == t && At(p, y, done, u, next, cut, x, inFlight)
  {
    hide Occurs, SR.Steps, SR.Enabled, Inv, AgentGuard, Apart, PcShape;
    y := w.(s := t, drainer := u);
    AgentOccurs(p, w, u, c, t);
    StageMove(p, w.s, done, u, pc, cut, t, next);
  }

  /** The active agent's status, by where it stands. */
  lemma ActiveRecord(p: Plan, w: World, u: nat)
    requires ValidPlan(p) && Occurs(p, w) && !w.unfinished && Threaded(w) && u < |p.g| && Shape(p, w.s) && !w.s.fatal
    ensures w.s.pcs[u] == Claiming ==> w.s.nodes[u].status == Ready
    ensures w.s.pcs[u] == Idle || w.s.nodes[u].unmet == 0
  {
    hide Open, OpenFrom, InDegree, NoCut, Roots, RootsFrom, IsRoot, Occurs;
    hide LocalsOk, EdgesOk, HoldsOk, OwnersOk, SettledOk, WorklistOk, FatalOk;
    WorldInv(p, w);
    LocalRecord(p, w.s, u);
    SR.SkippedMeansFatal(p, w.s);
  }

  /** From the executor's queue into the body. */
  lemma EnterBody(p: Plan, w: World, done: set<nat>, u: nat, x: D.Slot)
    returns (y: World)
    requires At(p, w, done, u, Queued, 0, x, 0) && u < |p.g|
    ensures SameWait(w, y) && At(p, y, done, u, InBody, 0, x, 0)
  {
    hide Occurs, Apart;
    var c := Choice(Ok, false, true);
    y := AgentGo(p, w, done, u, Queued, 0, x, 0, c, DoQueued(p, w.s, u), Claiming);
    ActiveRecord(p, y, u);
    y := AgentGo(p, y, done, u, Claiming, 0, x, 0, c, DoClaiming(p, y.s, u), InBody);
  }

  /** finishJob() begins with success. */
  lemma BeginFinish(p: Plan, w: World, done: set<nat>, u: nat, pc: Pc, x: D.Slot, inFlight: int)
    returns (y: World)
    requires At(p, w, done, u, pc, 0, x, inFlight) && u < |p.g| && (pc == InBody || pc == Waiting)
    requires p.deferred[u] ==> D.At(x, D.AtFinish) && x.result == Ok
    ensures SameWait(w, y) && At(p, y, done, u, Edge(0), 0, x, inFlight)
  {
    hide Occurs, Apart;
    var c := Choice(Ok, false, true);
    y := AgentGo(p, w, done, u, pc, 0, x, inFlight, c, DoBody(p, w.s, u, c), Storing);
    y := StoreSuccess(p, y, done, u, x, inFlight);
  }

  lemma StoreSuccess(p: Plan, w: World, done: set<nat>, u: nat, x: D.Slot, inFlight: int)
    returns (y: World)
    requires At(p, w, done, u, Storing, 0, x, inFlight) && u < |p.g| && u < |w.s.nodes| && w.s.nodes[u].outcome == Some(Ok)
    ensures SameWait(w, y) && At(p, y, done, u, Edge(0), 0, x, inFlight)
  {
    hide Occurs, Apart;
    y := AgentGo(p, w, done, u, Storing, 0, x, inFlight, Choice(Ok, false, true), DoStoring(p, w.s, u), Edge(0));
  }
}
