/** No run gets stuck, and the calling thread of a threaded run does not go round its re-check for ever. */
module PipelineProgress {
  import opened Jobs
  import opened Scheduler
  import opened SchedulerInvariant
  import opened SchedulerTheorems
  import SR = SchedulerRuns
  import D = Deferred
  import DR = DeferredRuns
  import DT = DeferredTheorems
  import opened PipelineRuns
  import opened PipelineSafety

  /** Job `v`'s body runs, or it is a deferred job that awaits its Completion. */
  predicate WaitsOutside(p: Plan, w: World, v: nat) {
    && v < |p.deferred| && v < |w.s.pcs| && v < |w.d.slots|
    && if p.deferred[v] then D.Started(w.d.slots[v]) && DT.WaitsOutside(w.d.slots[v]) else w.s.pcs[v] == InBody
  }

  /** Acts of the run itself: no body returns, no Completion is signalled, no stop is requested, no deadline expires,
      and no other run begins. */
  predicate Own(p: Plan, w: World, act: Act) {
    match act
    case OnSlot(_, m) => DT.Unaided(m) || m.Check?
    case Agent(step) =>
      step.AgentStep? && step.a < |p.deferred| && step.a < |w.s.pcs| && !p.deferred[step.a] ==> w.s.pcs[step.a] != InBody
    case BeginRun => false
    case StartRun(_) => false
    case ReleaseNext => false
    case _ => true
  }

  ghost predicate CanGoOn(p: Plan, w: World) {
    exists act, x :: Own(p, w, act) && Steps(p, w, act, x)
  }

  /** An active run, no run before it having left a job unfinished, in which nothing waits for the world outside. */
  ghost predicate OnItsOwn(p: Plan, w: World) {
    && WorldOk(p, w) && !w.unfinished && Active(w) && Sized(p, w)
    && forall v {:trigger w.d.slots[v]} :: 0 <= v < |p.g| ==> !WaitsOutside(p, w, v)
  }

  lemma Facts(p: Plan, w: World)
    requires OnItsOwn(p, w)
    ensures Inv(p, w.s) && Shape(p, w.s) && DR.Inv(w.d) && LinksOk(p, w) && Sized(p, w) && Active(w)
    ensures forall v: nat :: v < |p.g| ==> !WaitsOutside(p, w, v)
  {
    hide Inv, DR.Inv, LinksOk, OnDemandIdle, Unused, WaitOk, Risky, Chained, WaitsOutside;
    InvShape(p, w.s);
    forall v: nat | v < |p.g| ensures !WaitsOutside(p, w, v) { var x := w.d.slots[v]; }
  }

  // ---- Agents ----

  lemma SkipLoopGoesOn(p: Plan, w: World)
    requires OnItsOwn(p, w) && !w.s.drain.NotDraining?
    ensures CanGoOn(p, w)
  {
    hide OnItsOwn, Inv, Shape, DR.Inv, LinksOk, SR.Steps, WaitsOutside;
    Facts(p, w);
    var t := EnabledCanStep(p, w.s, SR.DrainStep);
    assert Steps(p, w, Agent(SR.DrainStep), w.(s := t));
    assert Own(p, w, Agent(SR.DrainStep));
  }

  /** An agent that need not wait for its slot. */
  lemma AgentGoesOn(p: Plan, w: World, a: nat, c: Choice)
    requires OnItsOwn(p, w) && w.s.drain.NotDraining? && a <= |p.g| && w.s.pcs[a] != Idle && w.s.pcs[a] != Ended && c.accepts
    requires a < |p.g| && p.deferred[a] && w.s.pcs[a] in {InBody, Waiting} ==> AgentGuard(w.d.slots[a], c)
    ensures CanGoOn(p, w)
  {
    hide OnItsOwn, Inv, Shape, DR.Inv, LinksOk, SR.Steps, AgentGuard;
    Facts(p, w);
    var step := SR.AgentStep(a, c);
    var t := EnabledCanStep(p, w.s, step);
    assert Steps(p, w, Agent(step), w.(s := t, drainer := a));
    if a < |p.g| { assert !WaitsOutside(p, w, a); }
    assert Own(p, w, Agent(step));
  }

  // ---- Slots ----

  lemma MoveGoesOn(p: Plan, w: World, i: nat, m: D.Move)
    requires Sized(p, w) && Active(w) && DR.Enabled(w.d, DR.OnSlot(i, m)) && i < |p.g| && SlotGuard(w, i, m)
    requires (DT.Unaided(m) || m.Check?) && (m.Check? ==> p.deferred[i])
    ensures CanGoOn(p, w)
  {
    hide DR.Enabled, DR.Step, SlotGuard, DT.Unaided;
    var x := w.(d := DR.Step(w.d, DR.OnSlot(i, m)));
    assert Own(p, w, OnSlot(i, m));
    assert Steps(p, w, OnSlot(i, m), x);
  }

  lemma AwaitGoesOn(p: Plan, w: World, i: nat)
    requires OnItsOwn(p, w) && DR.Enabled(w.d, DR.OnSlot(i, D.Look)) && i < |p.g| && w.d.slots[i].outcome.Undecided?
    ensures CanGoOn(p, w)
  {
    hide OnItsOwn, Inv, DR.Inv, LinksOk, DR.Step;
    Facts(p, w);
    LooksInBody(p, w, i);
    var x := w.(d := DR.Step(w.d, DR.OnSlot(i, D.Look)), s := Move(SetStatus(w.s, i, Awaiting), i, Waiting));
    assert Steps(p, w, Await(i), x);
    assert Own(p, w, Await(i));
  }

  lemma LooksInBody(p: Plan, w: World, i: nat)
    requires LinksOk(p, w) && i < |p.g| && w.d.slots[i].body.Returned?
    ensures w.s.pcs[i] == InBody
  {
    assert Linked(p.deferred[i], Draining(w, i), w.s.pcs[i], w.d.slots[i]);
  }

  /** A job whose finish is at finishJob(): its agent makes that call, or the call has returned. */
  lemma FinishGoesOn(p: Plan, w: World, i: nat)
    requires OnItsOwn(p, w) && w.s.drain.NotDraining? && i < |p.g| && D.At(w.d.slots[i], D.AtFinish)
    requires DR.Enabled(w.d, DR.OnSlot(i, D.FinishJob))
    ensures CanGoOn(p, w)
  {
    hide OnItsOwn, DR.Inv, Inv;
    Facts(p, w);
    assert Linked(p.deferred[i], Draining(w, i), w.s.pcs[i], w.d.slots[i]);
    SlotAt(w.d, i);
    FinishingLeft(w.d.slots[i]);
    if w.s.pcs[i] == Ended {
      MoveGoesOn(p, w, i, D.FinishJob);
    } else {
      AgentGoesOn(p, w, i, Choice(w.d.slots[i].result, false, true));
    }
  }

  lemma FinishingLeft(x: D.Slot)
    requires D.SlotOk(x) && x.finish.Finishing?
    ensures x.body.Left?
  {
    hide D.StopOk, D.OutcomeOk, D.EarlyOk, D.DeliveryOk, D.ResultOk, D.OrphanOk;
  }

  /** While some started job is not finished, some party of some job can move, or its agent can. */
  lemma UnfinishedGoesOn(p: Plan, w: World, i: nat)
    requires OnItsOwn(p, w) && w.s.drain.NotDraining? && i < |p.g|
    requires D.Started(w.d.slots[i]) && !w.d.slots[i].finish.Finished?
    ensures CanGoOn(p, w)
  {
    hide OnItsOwn, DR.Inv, Inv, Shape, LinksOk, D.Started, DT.WaitsOutside, D.Can;
    Facts(p, w);
    StartedDeferred(p, w, i);
    assert !WaitsOutside(p, w, i);
    var act := DT.SomeMove(w.d, i);
    var j, m := act.i, act.m;
    if m.Look? && w.d.slots[j].outcome.Undecided? {
      AwaitGoesOn(p, w, j);
    } else if m.FinishJob? {
      FinishAt(w.d.inline, w.d.ledger.None?, w.d.slots[j]);
      FinishGoesOn(p, w, j);
    } else {
      MoveGoesOn(p, w, j, m);
    }
  }

  lemma FinishAt(inline: bool, free: bool, x: D.Slot)
    requires D.Can(inline, free, x, D.FinishJob)
    ensures D.At(x, D.AtFinish)
  {
  }

  /** The first moves of a body, before its job is counted. */
  function FirstMove(x: D.Slot): D.Move {
    match x.body
    case Waiting => D.Check
    case Passed => D.Reset
    case Prepared => D.Arm(D.NoTimeout)
    case _ => D.Count
  }

  lemma FinishedLater(x: D.Slot, draining: bool, pc: Pc)
    requires D.SlotOk(x) && Linked(true, draining, pc, x) && D.Started(x) && (pc == InBody || pc == Waiting)
    ensures !x.finish.Finished?
  {
    hide D.StopOk, D.OutcomeOk, D.EarlyOk, D.DeliveryOk, D.ResultOk, D.OrphanOk;
  }

  /** A deferred job whose agent waits for its slot. */
  lemma BodyGoesOn(p: Plan, w: World, i: nat)
    requires OnItsOwn(p, w) && w.s.drain.NotDraining? && i < |p.g| && p.deferred[i] && w.s.pcs[i] in {InBody, Waiting}
    ensures CanGoOn(p, w)
  {
    hide OnItsOwn, DR.Inv, Inv, Shape;
    Facts(p, w);
    var x := w.d.slots[i];
    assert Linked(p.deferred[i], Draining(w, i), w.s.pcs[i], x);
    if x.body.Refused? {
      AgentGoesOn(p, w, i, Choice(Err(x.body.error), false, true));
    } else if D.Started(x) {
      SlotAt(w.d, i);
      FinishedLater(x, Draining(w, i), w.s.pcs[i]);
      UnfinishedGoesOn(p, w, i);
    } else {
      MoveGoesOn(p, w, i, FirstMove(x));
    }
  }

  /** While an agent is under way something can be done. */
  lemma ActingGoesOn(p: Plan, w: World, a: nat)
    requires OnItsOwn(p, w) && a <= |p.g| && Acting(w, a)
    ensures CanGoOn(p, w)
  {
    hide OnItsOwn, CanGoOn, AgentGuard, Inv, DR.Inv, LinksOk, Shape;
    Facts(p, w);
    if !w.s.drain.NotDraining? {
      SkipLoopGoesOn(p, w);
    } else if a < |p.g| && p.deferred[a] && w.s.pcs[a] in {InBody, Waiting} {
      BodyGoesOn(p, w, a);
    } else {
      AgentGoesOn(p, w, a, Choice(Ok, false, true));
    }
  }

  // ---- Everything finished ----

  /** A finished job that is still counted is being delivered. */
  lemma StillDelivered(x: D.Slot, inline: bool, free: bool) returns (m: D.Move)
    requires D.SlotOk(x) && D.InFlight(x) > 0 && x.finish.Finished?
    ensures D.Can(inline, free, x, m) && DT.Unaided(m) && !m.Check? && !m.Look? && !m.FinishJob? && !m.TakeListed?
  {
    hide D.StopOk, D.ResultOk, D.OrphanOk, D.EarlyOk, D.OutcomeOk;
    var byStop := !x.handle.Delivering? || x.handle.d.Start?;
    m := if D.DeliveryOf(x, byStop) == Some(D.OwnFinish) then D.FinishReturns(byStop) else D.Uncount(byStop);
  }

  lemma CountedGoesOn(p: Plan, w: World, i: nat)
    requires OnItsOwn(p, w) && i < |p.g| && D.InFlight(w.d.slots[i]) > 0 && w.d.slots[i].finish.Finished?
    ensures CanGoOn(p, w)
  {
    hide OnItsOwn, DR.Inv, Inv, Shape, LinksOk, D.SlotOk, D.Can, D.InFlight;
    Facts(p, w);
    SlotAt(w.d, i);
    var m := StillDelivered(w.d.slots[i], w.d.inline, w.d.ledger.None?);
    MoveGoesOn(p, w, i, m);
  }

  lemma LeavingGoesOn(p: Plan, w: World, i: nat)
    requires OnItsOwn(p, w) && i < |p.g| && w.d.slots[i].leaving > 0
    ensures CanGoOn(p, w)
  {
    hide OnItsOwn, DR.Inv, Inv, Shape, LinksOk;
    Facts(p, w);
    MoveGoesOn(p, w, i, D.Leave);
  }

  /** Every agent has ended and every job that started is finished, delivered and gone from the executor. */
  ghost predicate Calm(p: Plan, w: World) {
    && OnItsOwn(p, w) && (forall a: nat :: a <= |p.g| ==> !Acting(w, a))
    && (forall i {:trigger w.d.slots[i]} :: 0 <= i < |p.g| ==> w.d.slots[i].leaving == 0 && D.InFlight(w.d.slots[i]) == 0)
  }

  lemma CalmIdle(p: Plan, w: World)
    requires Calm(p, w)
    ensures w.d.inFlight == 0 && ExecutorIdle(p, w)
  {
    hide OnItsOwn, DR.Idle, Inv, Shape, D.InFlight, DR.SlotsOk, DR.LedgerOk, DR.AwaitedOk, DR.PhaseOk;
    Facts(p, w);
    DR.InFlightsZero(w.d.slots);
    forall v {:trigger w.s.pcs[v]} | 0 <= v < |p.g| ensures w.s.pcs[v] == Idle || w.s.pcs[v] == Ended {
      assert !Acting(w, v);
    }
    CalmStill(p, w);
  }

  lemma CalmStill(p: Plan, w: World)
    requires DR.Inv(w.d) && w.d.inFlight == 0 && LinksOk(p, w)
    requires forall v {:trigger w.s.pcs[v]} :: 0 <= v < |p.g| ==> w.s.pcs[v] == Idle || w.s.pcs[v] == Ended
    ensures DR.Idle(w.d)
  {
    hide DR.Inv, DR.Idle, Linked;
    AllStill(p, w);
  }

  /** Nothing is left for the run thread of an inline run to finish. */
  lemma NoneListed(d: DR.State)
    requires DR.Inv(d) && DR.Idle(d) && d.inFlight == 0
    ensures d.awaited == []
  {
    hide D.SlotOk, D.InFlight, DR.LedgerOk, DR.PhaseOk;
    DR.InFlightsZero(d.slots);
    if d.awaited != [] {
      var i := d.awaited[0];
      assert D.SlotOk(d.slots[i]) && D.InFlight(d.slots[i]) == 0;
      NotListed(d.slots[i]);
    }
  }

  lemma NotListed(x: D.Slot)
    requires D.SlotOk(x) && DR.Still(x) && D.InFlight(x) == 0
    ensures !x.finish.Listed?
  {
    DR.ParkedFinished(x);
  }

  lemma CalmGoesOn(p: Plan, w: World)
    requires Calm(p, w)
    ensures CanGoOn(p, w)
  {
    hide OnItsOwn, DR.Idle, DR.Inv, Inv, Shape, LinksOk, ExecutorIdle, JobsDone, SomeDeferred, Submitted, StartedJobs;
    CalmIdle(p, w);
    IdleDone(p, w);
    Facts(p, w);
    if w.d.inline {
      NoneListed(w.d);
      assert Steps(p, w, EndInline, w.(d := DR.Step(w.d, DR.EndRun))) && Own(p, w, EndInline);
    } else {
      match w.wait
      case Submitting =>
        var x := if SomeDeferred(p) then w.(wait := ZeroWait, first := PipelineRuns.Submitted(p, w.s)) else Returned(p, w);
        assert Steps(p, w, FirstIdle, x) && Own(p, w, FirstIdle);
      case ZeroWait =>
        assert Steps(p, w, ZeroSeen, w.(wait := SecondWait, settled := StartedJobs(w.d))) && Own(p, w, ZeroSeen);
      case SecondWait => assert Steps(p, w, SecondIdle, w.(wait := Recheck)) && Own(p, w, SecondIdle);
      case Recheck => assert Steps(p, w, Return, Returned(p, w)) && Own(p, w, Return);
    }
  }

  lemma IdleDone(p: Plan, w: World)
    requires ExecutorIdle(p, w)
    ensures JobsDone(p, w) && DR.Idle(w.d)
  {
  }

  // ---- The theorems ----

  /** No run gets stuck: while no job waits for its body or its Completion and the run has not returned, the run has a
      step of its own to take. */
  lemma NeverStuck(p: Plan, w: World)
    requires ValidPlan(p) && Occurs(p, w) && !w.unfinished && Active(w)
    requires forall v: nat :: v < |p.g| ==> !WaitsOutside(p, w, v)
    ensures CanGoOn(p, w)
  {
    hide Occurs, WorldOk, WaitsOutside, CanGoOn, D.InFlight, D.Started;
    OccursOk(p, w);
    WorldSized(p, w);
    assert OnItsOwn(p, w);
    if a: nat :| a <= |p.g| && Acting(w, a) {
      ActingGoesOn(p, w, a);
    } else if i: nat :| i < |p.g| && D.Started(w.d.slots[i]) && !w.d.slots[i].finish.Finished? {
      NoSkipLoop(p, w);
      UnfinishedGoesOn(p, w, i);
    } else if i: nat :| i < |p.g| && D.InFlight(w.d.slots[i]) > 0 {
      CountedIsStarted(p, w, i);
      CountedGoesOn(p, w, i);
    } else if i: nat :| i < |p.g| && w.d.slots[i].leaving > 0 {
      LeavingGoesOn(p, w, i);
    } else {
      CalmGoesOn(p, w);
    }
  }

  lemma NoSkipLoop(p: Plan, w: World)
    requires OnItsOwn(p, w) && forall a: nat :: a <= |p.g| ==> !Acting(w, a)
    ensures w.s.drain.NotDraining?
  {
    hide OnItsOwn, Inv, Shape, DR.Inv;
    Facts(p, w);
    DrainerActs(w);
  }

  lemma CountedIsStarted(p: Plan, w: World, i: nat)
    requires OnItsOwn(p, w) && i < |p.g| && D.InFlight(w.d.slots[i]) > 0
    ensures D.Started(w.d.slots[i])
  {
    hide OnItsOwn, Inv, Shape, DR.Inv, LinksOk, D.Started, D.InFlight, D.SlotOk;
    Facts(p, w);
    SlotAt(w.d, i);
    CountedStarted(w.d.slots[i]);
  }

  function DeferredJobs(p: Plan): set<nat> {
    set v: nat | v < |p.deferred| && p.deferred[v]
  }

  /** A threaded run's re-check fails at most once for each deferred job. */
  lemma RoundsBounded(p: Plan, w: World)
    requires ValidPlan(p) && Occurs(p, w) && !w.unfinished && Threaded(w)
    ensures w.rounds <= |DeferredJobs(p)|
  {
    hide Occurs, Risky, Chained, DR.Inv, Inv, Unused, OnDemandIdle, Linked, D.Started, NodeWaitOk;
    OccursOk(p, w);
    forall v | v in StartedJobs(w.d) ensures v in DeferredJobs(p) { StartedDeferred(p, w, v); }
    Subset(StartedJobs(w.d), DeferredJobs(p));
    Subset(w.settled, StartedJobs(w.d));
  }
}
