/** How a step of the scheduler or a move of a slot affects what a deferred job's agent and slot have to do with each
    other. */
module PipelineAgents {
  import opened Graphs
  import opened Scheduler
  import opened SchedulerInvariant
  import SR = SchedulerRuns
  import D = Deferred
  import opened PipelineRuns

  // ---- How control points move ----

  predicate PcFollows(deferred: bool, pc: Pc, next: Pc) {
    match pc
    case Queued => next == Claiming || next == Ended
    case Claiming => next == InBody || next == Ended
    case InBody => next == Storing || (deferred && next == Waiting)
    case Waiting => next == Storing
    case _ => AfterBody(next)
  }

  /** Agent `a` accepts a submission of `b` in this step. */
  ghost predicate Submits(p: Plan, s: State, a: nat, c: Choice, b: nat)
    requires Shape(p, s) && a <= |p.g|
  {
    s.pcs[a].Dispatching? && c.accepts && b == Out(p, a)[s.pcs[a].k]
  }

  /** Agent `a` moves on; the only other control point that may change is that of a node it submits. */
  ghost predicate PcsMoved(p: Plan, s: State, a: nat, c: Choice, t: State)
    requires Shape(p, s) && a <= |p.g|
  {
    && |t.pcs| == |s.pcs| && PcFollows(a < |p.g| && p.deferred[a], s.pcs[a], t.pcs[a])
    && (forall b: nat {:trigger t.pcs[b]} :: b < |s.pcs| && b != a && !Submits(p, s, a, c, b) ==> t.pcs[b] == s.pcs[b])
    && (forall b: nat {:trigger Submits(p, s, a, c, b)} :: Submits(p, s, a, c, b) ==>
          b < |p.g| && b != a && s.pcs[b] == Idle && t.pcs[b] == Queued)
    && (!s.drain.NotDraining? ==> t.drain == s.drain)
    && (t.drain != s.drain ==> AfterBody(t.pcs[a]) && (s.pcs[a].Queued? || AfterBody(s.pcs[a])))
  }

  lemma JobPcs(p: Plan, s: State, a: nat, c: Choice, t: State)
    requires Shape(p, s) && SR.Enabled(p, s, SR.AgentStep(a, c)) && SR.Steps(p, s, SR.AgentStep(a, c), t)
    requires s.pcs[a].Queued? || s.pcs[a].Claiming? || s.pcs[a].InBody? || s.pcs[a].Waiting? || s.pcs[a].Storing?
    ensures PcsMoved(p, s, a, c, t)
  {
    hide Open, OpenFrom, InDegree, NoCut, Roots, RootsFrom, IsRoot, IsCut;
  }

  lemma FailurePcs(p: Plan, s: State, a: nat, c: Choice, t: State)
    requires Shape(p, s) && SR.Enabled(p, s, SR.AgentStep(a, c)) && SR.Steps(p, s, SR.AgentStep(a, c), t)
    requires s.pcs[a].Recording? || s.pcs[a].Failing?
    ensures PcsMoved(p, s, a, c, t)
  {
    hide Open, OpenFrom, InDegree, NoCut, Roots, RootsFrom, IsRoot, IsCut, Out, ValidPlan;
  }

  lemma RejectionPcs(p: Plan, s: State, a: nat, c: Choice, t: State)
    requires Shape(p, s) && SR.Enabled(p, s, SR.AgentStep(a, c)) && SR.Steps(p, s, SR.AgentStep(a, c), t)
    requires s.pcs[a].Rejecting? || s.pcs[a].RejectRecording?
    ensures PcsMoved(p, s, a, c, t)
  {
    hide Open, OpenFrom, InDegree, NoCut, Roots, RootsFrom, IsRoot, IsCut, Out;
  }

  lemma SweepPcs(p: Plan, s: State, a: nat, c: Choice, t: State)
    requires Shape(p, s) && SR.Enabled(p, s, SR.AgentStep(a, c)) && SR.Steps(p, s, SR.AgentStep(a, c), t)
    requires s.pcs[a].Sweeping?
    ensures PcsMoved(p, s, a, c, t)
  {
    hide Open, OpenFrom, InDegree, NoCut, Roots, RootsFrom, IsRoot, IsCut, Out;
  }

  lemma EdgePcs(p: Plan, s: State, a: nat, c: Choice, t: State)
    requires Shape(p, s) && SR.Enabled(p, s, SR.AgentStep(a, c)) && SR.Steps(p, s, SR.AgentStep(a, c), t)
    requires s.pcs[a].Edge?
    ensures PcsMoved(p, s, a, c, t)
  {
    hide Open, OpenFrom, InDegree, NoCut, Roots, RootsFrom, IsRoot, IsCut, Out, ValidPlan;
  }

  lemma CountPcs(p: Plan, s: State, a: nat, c: Choice, t: State)
    requires Shape(p, s) && SR.Enabled(p, s, SR.AgentStep(a, c)) && SR.Steps(p, s, SR.AgentStep(a, c), t)
    requires s.pcs[a].Decrement? || s.pcs[a].Waking?
    ensures PcsMoved(p, s, a, c, t)
  {
    hide Open, OpenFrom, InDegree, NoCut, Roots, RootsFrom, IsRoot, IsCut, Out;
  }

  lemma DispatchPcs(p: Plan, s: State, a: nat, c: Choice, t: State)
    requires Shape(p, s) && SR.Enabled(p, s, SR.AgentStep(a, c)) && SR.Steps(p, s, SR.AgentStep(a, c), t)
    requires s.pcs[a].Dispatching? && HeldOk(p, s, a, s.pcs[a])
    ensures PcsMoved(p, s, a, c, t)
  {
    hide Open, OpenFrom, InDegree, NoCut, Roots, RootsFrom, IsRoot, IsCut;
  }

  lemma PcsMove(p: Plan, s: State, a: nat, c: Choice, t: State)
    requires Shape(p, s) && SR.Enabled(p, s, SR.AgentStep(a, c)) && SR.Steps(p, s, SR.AgentStep(a, c), t)
    requires HeldOk(p, s, a, s.pcs[a])
    ensures PcsMoved(p, s, a, c, t)
  {
    hide SR.Steps, IsCut, ValidPlan, PcShape, PcsMoved, HeldOk, Roots, InDegree;
    if s.pcs[a].Queued? || s.pcs[a].Claiming? || s.pcs[a].InBody? || s.pcs[a].Waiting? || s.pcs[a].Storing? {
      JobPcs(p, s, a, c, t);
    } else if s.pcs[a].Edge? {
      EdgePcs(p, s, a, c, t);
    } else if s.pcs[a].Decrement? || s.pcs[a].Waking? {
      CountPcs(p, s, a, c, t);
    } else if s.pcs[a].Dispatching? {
      DispatchPcs(p, s, a, c, t);
    } else if s.pcs[a].Recording? || s.pcs[a].Failing? {
      FailurePcs(p, s, a, c, t);
    } else if s.pcs[a].Sweeping? {
      SweepPcs(p, s, a, c, t);
    } else {
      RejectionPcs(p, s, a, c, t);
    }
  }

  /** An agent's submission follows an edge of the graph, or is a root's. */
  lemma SubmitsAlong(p: Plan, s: State, a: nat, c: Choice, b: nat)
    requires Shape(p, s) && a <= |p.g| && Submits(p, s, a, c, b)
    ensures b < |p.g| && (if a < |p.g| then IsEdge(p.g, a, b) else b in Roots(p))
  {
    hide OpenFrom, Open, InDegree, NoCut, RootsFrom, IsRoot, IsCut;
  }

  // ---- Slots and agents ----

  lemma LinkedBody(inline: bool, free: bool, x: D.Slot, m: D.Move, draining: bool, pc: Pc)
    requires D.SlotOk(x) && D.IsBodyMove(m) && D.Can(inline, free, x, m) && Linked(true, draining, pc, x)
    requires m.Check? ==> pc == InBody
    ensures (m.Look? ==> !x.outcome.Undecided?) ==> Linked(true, draining, pc, D.BodyMove(x, m))
    ensures m.Look? ==> Linked(true, draining, Waiting, D.BodyMove(x, m))
  {
    hide D.SlotOk, D.BodyMove, Linked;
    if m.Arrive? { LinkedArrive(inline, free, x, m, draining, pc); }
    else if m.Check? || m.Reset? || m.Arm? || m.Count? { LinkedStart(inline, free, x, m, draining, pc); }
    else { LinkedOther(inline, free, x, m, draining, pc); }
  }

  lemma LinkedArrive(inline: bool, free: bool, x: D.Slot, m: D.Move, draining: bool, pc: Pc)
    requires D.SlotOk(x) && m.Arrive? && D.Can(inline, free, x, m) && Linked(true, draining, pc, x)
    ensures Linked(true, draining, pc, D.BodyMove(x, m))
  {
    hide D.StopOk, D.ResultOk, D.OrphanOk, D.DeliveryOk, D.EarlyOk, D.OutcomeOk;
  }

  lemma LinkedStart(inline: bool, free: bool, x: D.Slot, m: D.Move, draining: bool, pc: Pc)
    requires D.SlotOk(x) && (m.Check? || m.Reset? || m.Arm? || m.Count?) && D.Can(inline, free, x, m)
    requires Linked(true, draining, pc, x) && (m.Check? ==> pc == InBody)
    ensures Linked(true, draining, pc, D.BodyMove(x, m))
  {
    hide D.StopOk, D.ResultOk, D.OrphanOk, D.DeliveryOk, D.EarlyOk, D.OutcomeOk;
  }

  lemma LinkedOther(inline: bool, free: bool, x: D.Slot, m: D.Move, draining: bool, pc: Pc)
    requires D.SlotOk(x) && D.IsBodyMove(m) && D.Can(inline, free, x, m) && Linked(true, draining, pc, x)
    requires !m.Arrive? && !m.Check? && !m.Reset? && !m.Arm? && !m.Count?
    ensures (m.Look? ==> !x.outcome.Undecided?) ==> Linked(true, draining, pc, D.BodyMove(x, m))
    ensures m.Look? ==> Linked(true, draining, Waiting, D.BodyMove(x, m))
  {
    hide D.StopOk, D.ResultOk, D.OrphanOk, D.DeliveryOk, D.EarlyOk, D.OutcomeOk;
  }

  lemma LinkedParty(inline: bool, free: bool, x: D.Slot, m: D.Move, draining: bool, pc: Pc)
    requires (D.IsHandleMove(m) || D.IsStopMove(m)) && D.Can(inline, free, x, m) && Linked(true, draining, pc, x)
    ensures Linked(true, draining, pc, if D.IsHandleMove(m) then D.HandleMove(x, m) else D.StopMove(x, m))
  {
    hide D.HandleMove, D.StopMove, Linked;
    PartyFrame(inline, free, x, m);
    LinkedSame(true, draining, pc, x, if D.IsHandleMove(m) then D.HandleMove(x, m) else D.StopMove(x, m));
  }

  predicate SamePlace(x: D.Slot, y: D.Slot) { y.body == x.body && y.finish == x.finish && y.leaving == x.leaving }

  lemma LinkedSame(deferred: bool, draining: bool, pc: Pc, x: D.Slot, y: D.Slot)
    requires Linked(deferred, draining, pc, x) && SamePlace(x, y)
    ensures Linked(deferred, draining, pc, y)
  {
  }

  lemma HandleFrame(inline: bool, free: bool, x: D.Slot, m: D.Move)
    requires D.Can(inline, free, x, m) && D.IsHandleMove(m)
    ensures SamePlace(x, D.HandleMove(x, m))
  {
  }

  lemma StopFrame(inline: bool, free: bool, x: D.Slot, m: D.Move)
    requires D.Can(inline, free, x, m) && D.IsStopMove(m)
    ensures SamePlace(x, D.StopMove(x, m))
  {
  }

  /** The Completion and the stop touch neither the body nor the finish. */
  lemma PartyFrame(inline: bool, free: bool, x: D.Slot, m: D.Move)
    requires D.Can(inline, free, x, m) && (D.IsHandleMove(m) || D.IsStopMove(m))
    ensures SamePlace(x, if D.IsHandleMove(m) then D.HandleMove(x, m) else D.StopMove(x, m))
  {
    hide D.HandleMove, D.StopMove, SamePlace;
    if D.IsHandleMove(m) { HandleFrame(inline, free, x, m); } else { StopFrame(inline, free, x, m); }
  }

  lemma PartFrame(x: D.Slot, byStop: bool, d: D.Delivery)
    ensures SamePlace(x, D.SetDelivery(x, byStop, d)) && SamePlace(x, D.EndDelivery(x, byStop))
  {
  }

  lemma DeliveryFrame(x: D.Slot, m: D.Move)
    requires D.IsDeliveryMove(m)
    ensures D.DeliveryMove(x, m).body == x.body && D.DeliveryMove(x, m).leaving == x.leaving
    ensures !m.Dispatch? && !m.List? ==> D.DeliveryMove(x, m).finish == x.finish
  {
    hide D.SetDelivery, D.EndDelivery;
    PartFrame(x, m.byStop, D.Dispatching);
    PartFrame(x, m.byStop, D.OwnFinish);
    PartFrame(x, m.byStop, D.Uncounting);
  }

  lemma HandOnDue(inline: bool, free: bool, x: D.Slot, m: D.Move)
    requires D.SlotOk(x) && D.Can(inline, free, x, m) && (m.Dispatch? || m.List?)
    ensures x.finish.NotFinished?
  {
    hide D.StopOk, D.ResultOk, D.OrphanOk, D.DeliveryOk, D.EarlyOk, D.OutcomeOk;
  }

  lemma HandOnFinish(x: D.Slot, m: D.Move)
    requires m.Dispatch? || m.List?
    ensures D.DeliveryMove(x, m).finish == if m.List? then D.Listed else if m.accepted then D.Queued
                                           else D.Finishing(D.ByForeign, D.AtOrphan)
  {
    hide D.SetDelivery, D.EndDelivery;
  }

  lemma LinkedHandOn(inline: bool, free: bool, x: D.Slot, m: D.Move, draining: bool, pc: Pc)
    requires D.SlotOk(x) && (m.Dispatch? || m.List?) && D.Can(inline, free, x, m) && Linked(true, draining, pc, x)
    ensures Linked(true, draining, pc, D.DeliveryMove(x, m))
  {
    hide D.SlotOk, D.Can, D.DeliveryMove;
    HandOnDue(inline, free, x, m);
    HandOnFinish(x, m);
    DeliveryFrame(x, m);
  }

  lemma LinkedDelivery(inline: bool, free: bool, x: D.Slot, m: D.Move, draining: bool, pc: Pc)
    requires D.SlotOk(x) && D.IsDeliveryMove(m) && D.Can(inline, free, x, m) && Linked(true, draining, pc, x)
    ensures Linked(true, draining, pc, D.DeliveryMove(x, m))
  {
    hide D.SlotOk, D.DeliveryMove, Linked, D.DeliveryOf;
    if m.Dispatch? || m.List? {
      LinkedHandOn(inline, free, x, m, draining, pc);
    } else {
      DeliveryFrame(x, m);
      LinkedSame(true, draining, pc, x, D.DeliveryMove(x, m));
    }
  }

  lemma LinkedFinish(inline: bool, free: bool, x: D.Slot, m: D.Move, draining: bool, pc: Pc)
    requires D.SlotOk(x) && D.Can(inline, free, x, m) && Linked(true, draining, pc, x)
    requires !D.IsBodyMove(m) && !D.IsHandleMove(m) && !D.IsStopMove(m) && !D.IsDeliveryMove(m)
    requires m.FinishJob? ==> pc == Ended && !draining
    ensures Linked(true, draining, pc, D.FinishMove(x, m))
  {
    hide D.StopOk, D.ResultOk, D.OrphanOk, D.DeliveryOk, D.EarlyOk, D.OutcomeOk;
  }

  lemma LinkedMove(inline: bool, free: bool, x: D.Slot, m: D.Move, draining: bool, pc: Pc)
    requires D.SlotOk(x) && D.Can(inline, free, x, m) && Linked(true, draining, pc, x)
    requires m.Check? ==> pc == InBody
    requires m.Look? ==> !x.outcome.Undecided?
    requires m.FinishJob? ==> pc == Ended && !draining
    ensures Linked(true, draining, pc, D.After(inline, free, x, m))
  {
    hide D.SlotOk, D.Can, D.BodyMove, D.HandleMove, D.StopMove, D.DeliveryMove, D.FinishMove, Linked;
    if D.IsBodyMove(m) { LinkedBody(inline, free, x, m, draining, pc); }
    else if D.IsHandleMove(m) || D.IsStopMove(m) { LinkedParty(inline, free, x, m, draining, pc); }
    else if D.IsDeliveryMove(m) { LinkedDelivery(inline, free, x, m, draining, pc); }
    else { LinkedFinish(inline, free, x, m, draining, pc); }
  }

  /** How far a job has come after a move: only the check takes a body out of Waiting, only its count makes it a
      started one, and what has come to rest stays so. */
  predicate Advances(x: D.Slot, y: D.Slot, m: D.Move) {
    && (x.body.Waiting? && !m.Check? ==> y.body.Waiting? && y.leaving <= x.leaving)
    && (D.Started(x) ==> D.Started(y))
    && (D.Started(y) ==> D.Started(x) || x.body.Counting?)
    && (x.finish.Finished? ==> y.finish.Finished? && y.leaving <= x.leaving)
  }

  lemma BodyAdvances(inline: bool, free: bool, x: D.Slot, m: D.Move)
    requires D.SlotOk(x) && D.Can(inline, free, x, m) && D.IsBodyMove(m)
    ensures Advances(x, D.BodyMove(x, m), m)
  {
    hide D.SlotOk, D.BodyMove, Advances;
    if m.Arrive? { ArriveAdvances(inline, free, x, m); }
    else if m.Check? || m.Reset? || m.Arm? || m.Count? { StartAdvances(inline, free, x, m); }
    else { OtherBodyAdvances(inline, free, x, m); }
  }

  lemma ArriveAdvances(inline: bool, free: bool, x: D.Slot, m: D.Move)
    requires D.SlotOk(x) && m.Arrive? && D.Can(inline, free, x, m)
    ensures Advances(x, D.BodyMove(x, m), m)
  {
    hide D.StopOk, D.ResultOk, D.OrphanOk, D.DeliveryOk, D.EarlyOk, D.OutcomeOk;
  }

  lemma StartAdvances(inline: bool, free: bool, x: D.Slot, m: D.Move)
    requires D.SlotOk(x) && D.Can(inline, free, x, m) && (m.Check? || m.Reset? || m.Arm? || m.Count?)
    ensures Advances(x, D.BodyMove(x, m), m)
  {
    hide D.StopOk, D.ResultOk, D.OrphanOk, D.DeliveryOk, D.EarlyOk, D.OutcomeOk;
  }

  lemma OtherBodyAdvances(inline: bool, free: bool, x: D.Slot, m: D.Move)
    requires D.SlotOk(x) && D.Can(inline, free, x, m) && D.IsBodyMove(m)
    requires !m.Arrive? && !m.Check? && !m.Reset? && !m.Arm? && !m.Count?
    ensures Advances(x, D.BodyMove(x, m), m)
  {
    hide D.StopOk, D.ResultOk, D.OrphanOk, D.DeliveryOk, D.EarlyOk, D.OutcomeOk;
  }

  lemma PartyAdvances(x: D.Slot, y: D.Slot, m: D.Move)
    requires SamePlace(x, y)
    ensures Advances(x, y, m)
  {
  }

  lemma DeliveryAdvances(inline: bool, free: bool, x: D.Slot, m: D.Move)
    requires D.SlotOk(x) && D.Can(inline, free, x, m) && D.IsDeliveryMove(m)
    ensures Advances(x, D.DeliveryMove(x, m), m)
  {
    hide D.StopOk, D.ResultOk, D.OrphanOk, D.DeliveryOk, D.EarlyOk, D.OutcomeOk;
    DeliveryFrame(x, m);
  }

  lemma FinishAdvances(inline: bool, free: bool, x: D.Slot, m: D.Move)
    requires D.SlotOk(x) && D.Can(inline, free, x, m)
    requires !D.IsBodyMove(m) && !D.IsHandleMove(m) && !D.IsStopMove(m) && !D.IsDeliveryMove(m)
    ensures Advances(x, D.FinishMove(x, m), m)
  {
    hide D.StopOk, D.ResultOk, D.OrphanOk, D.DeliveryOk, D.EarlyOk, D.OutcomeOk;
  }

  lemma SlotAdvances(inline: bool, free: bool, x: D.Slot, m: D.Move)
    requires D.SlotOk(x) && D.Can(inline, free, x, m)
    ensures Advances(x, D.After(inline, free, x, m), m)
  {
    hide D.SlotOk, D.Can, D.BodyMove, D.HandleMove, D.StopMove, D.DeliveryMove, D.FinishMove, Advances;
    if D.IsBodyMove(m) {
      BodyAdvances(inline, free, x, m);
    } else if D.IsHandleMove(m) || D.IsStopMove(m) {
      PartyFrame(inline, free, x, m);
      PartyAdvances(x, D.After(inline, free, x, m), m);
    } else if D.IsDeliveryMove(m) {
      DeliveryAdvances(inline, free, x, m);
    } else {
      FinishAdvances(inline, free, x, m);
    }
  }

  /** A finished job that nobody delivers any more is not counted in flight again. */
  lemma FinishedStays(inline: bool, free: bool, x: D.Slot, m: D.Move)
    requires D.SlotOk(x) && D.Can(inline, free, x, m) && x.finish.Finished? && D.InFlight(x) == 0
    ensures D.InFlight(D.After(inline, free, x, m)) == 0
  {
    hide D.After;
    D.SharesMove(inline, free, x, m);
    FinishedUncounted(inline, free, x, m);
  }

  lemma FinishedUncounted(inline: bool, free: bool, x: D.Slot, m: D.Move)
    requires D.SlotOk(x) && D.Can(inline, free, x, m) && x.finish.Finished? && D.InFlight(x) == 0
    ensures D.InFlightChange(m) <= 0
  {
    hide D.StopOk, D.ResultOk, D.OrphanOk, D.DeliveryOk, D.EarlyOk, D.OutcomeOk;
  }

  /** Whatever its agent does, a deferred job's slot goes with it. */
  lemma LinkedAgent(x: D.Slot, pc: Pc, next: Pc, c: Choice, drains: bool)
    requires D.SlotOk(x) && Linked(true, false, pc, x) && pc != Idle && pc != Ended && PcFollows(true, pc, next)
    requires pc == InBody || pc == Waiting ==> AgentGuard(x, c) && next == Storing
    requires drains ==> AfterBody(next) && (pc.Queued? || AfterBody(pc))
    ensures Linked(true, drains, next, x)
  {
  }

  lemma PlainAgent(pc: Pc, next: Pc, x: D.Slot, drains: bool)
    requires Linked(false, false, pc, x) && PcFollows(false, pc, next) && (drains ==> AfterBody(next))
    ensures Linked(false, drains, next, x)
  {
  }

  lemma LinkedSubmitted(deferred: bool, x: D.Slot)
    requires Linked(deferred, false, Idle, x)
    ensures Linked(deferred, false, Queued, x)
  {
  }

  /** The skip loop ends. */
  lemma LinkedCalmer(deferred: bool, draining: bool, pc: Pc, x: D.Slot)
    requires Linked(deferred, draining, pc, x)
    ensures Linked(deferred, false, pc, x)
  {
  }

  /** An agent that has not been submitted is nowhere, and its job has not started. */
  lemma LinkedIdle(deferred: bool, draining: bool, x: D.Slot)
    requires Linked(deferred, draining, Idle, x)
    ensures x.body.Waiting? && !D.Started(x) && x.leaving == 0 && !draining
  {
  }

  /** A job that is started at all was started before its agent ended. */
  lemma LinkedEnded(deferred: bool, draining: bool, x: D.Slot)
    requires Linked(deferred, draining, Ended, x)
    ensures !x.body.Counting?
  {
  }

  lemma PlainLinked(draining: bool, pc: Pc, x: D.Slot, y: D.Slot)
    requires Linked(false, draining, pc, x) && y.body.Waiting? && y.leaving <= x.leaving
    ensures Linked(false, draining, pc, y)
  {
  }
}
