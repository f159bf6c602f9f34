/** The callables that an executor was given for a deferred job, counted: what waitAll() waits for. */
module PipelineCallables {
  import opened Scheduler
  import D = Deferred
  import opened PipelineRuns
  import opened PipelineAgents

  /** The thread that runs the body is between its check and its arrival. */
  predicate InJob(b: D.Body) {
    b.Passed? || b.Prepared? || b.Counting? || b.Registering? || b.InCallback? || b.Registered? || b.InBody?
    || b.Returned? || b.Arriving?
  }

  /** The job's callables on the executor: the one that runs the body or, arriving last, finishes the job; a continuation
      that waits or finishes the job; and those that have only to return. A job that is refused goes on in its agent. */
  function Callables(x: D.Slot): nat {
    (if InJob(x.body) || (x.finish.Finishing? && x.finish.by_.ByBody?) then 1 else 0)
    + (if x.finish.Queued? || (x.finish.Finishing? && x.finish.by_.ByExecutor?) then 1 else 0)
    + x.leaving
  }

  /** A job that passes its check has a callable, an accepted dispatch adds one, and a return takes one away. */
  function Change(x: D.Slot, m: D.Move): int {
    match m
    case Check => if x.stopRequested then 0 else 1
    case Arm(arming) => if arming.NoService? then -1 else 0
    case Dispatch(_, accepted) => if accepted then 1 else 0
    case Leave => -1
    case _ => 0
  }

  lemma StartCalls(inline: bool, free: bool, x: D.Slot, m: D.Move)
    requires D.SlotOk(x) && D.Can(inline, free, x, m) && (m.Check? || m.Reset? || m.Arm? || m.Count?)
    ensures Callables(D.BodyMove(x, m)) == Callables(x) + Change(x, m)
  {
    hide D.StopOk, D.ResultOk, D.OrphanOk, D.DeliveryOk, D.EarlyOk, D.OutcomeOk;
  }

  lemma RunCalls(inline: bool, free: bool, x: D.Slot, m: D.Move)
    requires D.SlotOk(x) && D.Can(inline, free, x, m) && D.IsBodyMove(m)
    requires !m.Check? && !m.Reset? && !m.Arm? && !m.Count? && !m.Arrive?
    ensures Callables(D.BodyMove(x, m)) == Callables(x) + Change(x, m)
  {
    hide D.SlotOk;
  }

  lemma ArriveCalls(inline: bool, free: bool, x: D.Slot, m: D.Move)
    requires D.SlotOk(x) && m.Arrive? && D.Can(inline, free, x, m)
    ensures Callables(D.BodyMove(x, m)) == Callables(x)
  {
    hide D.StopOk, D.ResultOk, D.OrphanOk, D.DeliveryOk, D.EarlyOk, D.OutcomeOk;
  }

  lemma HandOnCalls(inline: bool, free: bool, x: D.Slot, m: D.Move)
    requires D.SlotOk(x) && D.Can(inline, free, x, m) && (m.Dispatch? || m.List?)
    ensures Callables(D.DeliveryMove(x, m)) == Callables(x) + Change(x, m)
  {
    hide D.SlotOk, D.Can, D.DeliveryMove;
    HandOnDue(inline, free, x, m);
    HandOnFinish(x, m);
    DeliveryFrame(x, m);
  }

  lemma DeliveryCalls(inline: bool, free: bool, x: D.Slot, m: D.Move)
    requires D.SlotOk(x) && D.Can(inline, free, x, m) && D.IsDeliveryMove(m)
    ensures Callables(D.DeliveryMove(x, m)) == Callables(x) + Change(x, m)
  {
    hide D.SlotOk, D.DeliveryMove, Callables, D.Can;
    if m.Dispatch? || m.List? {
      HandOnCalls(inline, free, x, m);
    } else {
      DeliveryFrame(x, m);
      SameCalls(x, D.DeliveryMove(x, m));
    }
  }

  lemma SameCalls(x: D.Slot, y: D.Slot)
    requires SamePlace(x, y)
    ensures Callables(y) == Callables(x)
  {
  }

  lemma FinishCalls(inline: bool, free: bool, x: D.Slot, m: D.Move)
    requires D.SlotOk(x) && D.Can(inline, free, x, m)
    requires !D.IsBodyMove(m) && !D.IsHandleMove(m) && !D.IsStopMove(m) && !D.IsDeliveryMove(m)
    ensures Callables(D.FinishMove(x, m)) == Callables(x)
  {
    hide D.StopOk, D.ResultOk, D.OrphanOk, D.DeliveryOk, D.EarlyOk, D.OutcomeOk;
  }

  /** No callable is lost or invented: between its check and its return a job's callable is counted, whatever it does. */
  lemma CallablesCount(inline: bool, free: bool, x: D.Slot, m: D.Move)
    requires D.SlotOk(x) && D.Can(inline, free, x, m)
    ensures Callables(D.After(inline, free, x, m)) == Callables(x) + Change(x, m)
  {
    hide D.SlotOk, D.BodyMove, D.HandleMove, D.StopMove, D.DeliveryMove, D.FinishMove, Callables, SamePlace;
    if m.Check? || m.Reset? || m.Arm? || m.Count? {
      StartCalls(inline, free, x, m);
    } else if m.Arrive? {
      ArriveCalls(inline, free, x, m);
    } else if D.IsBodyMove(m) {
      RunCalls(inline, free, x, m);
    } else if D.IsHandleMove(m) || D.IsStopMove(m) {
      PartyFrame(inline, free, x, m);
      SameCalls(x, D.After(inline, free, x, m));
    } else if D.IsDeliveryMove(m) {
      DeliveryCalls(inline, free, x, m);
    } else {
      FinishCalls(inline, free, x, m);
    }
  }

  /** When the executor is idle, none of a deferred job's callables is left on it. */
  lemma IdleMeansNone(p: Plan, w: World, i: nat)
    requires ExecutorIdle(p, w) && i < |w.d.slots|
    ensures Callables(w.d.slots[i]) == 0
  {
  }
}
