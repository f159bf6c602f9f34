/** All deferred jobs of a pipeline over any number of runs: the count of deferred work in flight, the orphan
    ledger, and the start and end of a run. A run ends here with nothing left to do; PipelineTheorems shows when the
    runs of a pipeline do. */
module DeferredRuns {
  import opened Jobs
  import opened Deferred

  datatype Phase =
    | Resting             // no run
    | Joining             // a run waits for the orphans of earlier ones
    | Active
    | Ending(next: nat)   // the run removes the registrations of slot `next` and later

  datatype State = State(
    phase: Phase,
    inline: bool,           // the active run calls jobs on its own thread
    inFlight: int,          // deferredInFlight
    orphans: int,           // DeferredOrphans::count
    ledger: Option<nat>,    // whose finisher holds DeferredOrphans::mtx between two accesses
    awaited: seq<nat>,      // jobs for the run thread of an inline run to finish, oldest first
    slots: seq<Slot>)

  datatype Action =
    | OnSlot(i: nat, m: Move)
    | BeginRun
    | StartRun(inline: bool)
    | EndRun
    | ReleaseNext

  function Init(n: nat): State {
    State(Resting, false, 0, 0, None, [], seq(n, _ => Fresh()))
  }

  /** No body and no continuation on the executor has anything left to do but return. */
  predicate Idle(s: State) {
    forall i {:trigger s.slots[i]} :: 0 <= i < |s.slots| ==>
      Still(s.slots[i]) && !s.slots[i].finish.Queued? && !(s.slots[i].finish.Finishing? && !s.slots[i].finish.by_.ByForeign?)
  }

  predicate Still(x: Slot) { x.body.Waiting? || x.body.Refused? || x.body.Left? }

  predicate Enabled(s: State, a: Action) {
    match a
    case OnSlot(i, m) =>
      && i < |s.slots| && Can(s.inline, s.ledger.None?, s.slots[i], m)
      && (m.Check? ==> s.phase.Active?)
      && (m.TakeListed? ==> s.awaited != [] && s.awaited[0] == i)
    case BeginRun => s.phase.Resting?
    case StartRun(_) => s.phase.Joining? && s.orphans == 0
    case EndRun => s.phase.Active? && Idle(s) && s.awaited == [] && s.inFlight == 0
    case ReleaseNext =>
      s.phase.Ending?
      && (s.phase.next < |s.slots| ==>
            CallbackIdle(s.slots[s.phase.next]) && !s.slots[s.phase.next].timer.Expiring?)
  }

  /** A slot at the start of a run: its stop source is new; the rest is left as the last run left it. */
  function Renewed(x: Slot): Slot {
    x.(body := Waiting, stopRequested := false, finish := NotFinished, leaving := 0, finishes := 0,
       finishedWith := None)
  }

  function LedgerAfter(s: State, i: nat, m: Move): Option<nat>
    requires i < |s.slots|
  {
    if m.MarkOrphan? && s.slots[i].outcome.Stopped? && !s.slots[i].released then Some(i)
    else if m.CountOrphan? then None
    else s.ledger
  }

  function AwaitedAfter(s: State, i: nat, m: Move): seq<nat>
    requires m.TakeListed? ==> s.awaited != []
  {
    if m.List? then s.awaited + [i] else if m.TakeListed? then s.awaited[1..] else s.awaited
  }

  function SlotStep(s: State, i: nat, m: Move): State
    requires Enabled(s, OnSlot(i, m))
  {
    s.(slots := s.slots[i := After(s.inline, s.ledger.None?, s.slots[i], m)],
       inFlight := s.inFlight + InFlightChange(m),
       orphans := s.orphans + OrphanChange(m),
       ledger := LedgerAfter(s, i, m),
       awaited := AwaitedAfter(s, i, m))
  }

  function Dropped(x: Slot): Slot { x.(callback := Unregistered, timer := Off) }

  function Step(s: State, a: Action): State
    requires Enabled(s, a)
  {
    match a
    case OnSlot(i, m) => SlotStep(s, i, m)
    case BeginRun => s.(phase := Joining)
    case StartRun(inline) =>
      s.(phase := Active, inline := inline, inFlight := 0, awaited := [],
         slots := seq(|s.slots|, i requires 0 <= i < |s.slots| => Renewed(s.slots[i])))
    case EndRun => s.(phase := Ending(0))
    case ReleaseNext =>
      var k := s.phase.next;
      if k == |s.slots| then s.(phase := Resting)
      else if k < |s.slots| then s.(phase := Ending(k + 1), slots := s.slots[k := Dropped(s.slots[k])])
      else s
  }

  // ---- Sums over the slots ----

  function InFlights(slots: seq<Slot>): nat {
    if slots == [] then 0 else InFlights(slots[..|slots| - 1]) + InFlight(slots[|slots| - 1])
  }

  /** Orphans whose count has risen and whose release is not recorded. */
  function Recorded(x: Slot): int { OrphanCount(x) - Holding(x) }

  function AllRecorded(slots: seq<Slot>): int {
    if slots == [] then 0 else AllRecorded(slots[..|slots| - 1]) + Recorded(slots[|slots| - 1])
  }

  lemma {:induction false} InFlightsUpdate(slots: seq<Slot>, i: nat, x: Slot)
    requires i < |slots|
    ensures InFlights(slots[i := x]) == InFlights(slots) + InFlight(x) - InFlight(slots[i])
  {
    hide InFlight;
    var n, after := |slots| - 1, slots[i := x];
    if i == n {
      assert after[..n] == slots[..n];
    } else {
      assert after[..n] == slots[..n][i := x] && after[n] == slots[n];
      InFlightsUpdate(slots[..n], i, x);
    }
  }

  lemma {:induction false} RecordedUpdate(slots: seq<Slot>, i: nat, x: Slot)
    requires i < |slots|
    ensures AllRecorded(slots[i := x]) == AllRecorded(slots) + Recorded(x) - Recorded(slots[i])
  {
    hide Recorded;
    var n, after := |slots| - 1, slots[i := x];
    if i == n {
      assert after[..n] == slots[..n];
    } else {
      assert after[..n] == slots[..n][i := x] && after[n] == slots[n];
      RecordedUpdate(slots[..n], i, x);
    }
  }

  lemma {:induction false} InFlightsZero(slots: seq<Slot>)
    ensures InFlights(slots) == 0 <==> forall i :: 0 <= i < |slots| ==> InFlight(slots[i]) == 0
  {
    hide InFlight;
    if slots != [] {
      var n := |slots| - 1;
      InFlightsZero(slots[..n]);
      if InFlights(slots) == 0 {
        forall i | 0 <= i < |slots| ensures InFlight(slots[i]) == 0 {
          if i < n { assert slots[..n][i] == slots[i]; }
        }
      }
    }
  }

  lemma {:induction false} RecordedZero(slots: seq<Slot>)
    requires forall i :: 0 <= i < |slots| ==> Recorded(slots[i]) >= 0
    ensures AllRecorded(slots) >= 0
    ensures AllRecorded(slots) == 0 <==> forall i :: 0 <= i < |slots| ==> Recorded(slots[i]) == 0
  {
    hide Recorded;
    if slots != [] {
      var n := |slots| - 1;
      RecordedZero(slots[..n]);
      if AllRecorded(slots) == 0 {
        forall i | 0 <= i < |slots| ensures Recorded(slots[i]) == 0 {
          if i < n { assert slots[..n][i] == slots[i]; }
        }
      }
    }
  }

  // ---- The invariant ----

  ghost predicate SlotsOk(s: State) {
    forall i {:trigger s.slots[i]} :: 0 <= i < |s.slots| ==> SlotOk(s.slots[i])
  }

  ghost predicate CountsOk(s: State) {
    s.inFlight == InFlights(s.slots) && s.orphans == AllRecorded(s.slots)
  }

  ghost predicate LedgerOk(s: State) {
    && (s.ledger.Some? ==> s.ledger.value < |s.slots|)
    && forall i {:trigger s.slots[i]} :: 0 <= i < |s.slots| ==> (HoldsLedger(s.slots[i]) <==> s.ledger == Some(i))
  }

  ghost predicate AwaitedOk(s: State) {
    && (forall i {:trigger s.slots[i]} :: 0 <= i < |s.slots| ==> (s.slots[i].finish.Listed? <==> i in s.awaited))
    && (forall j :: 0 <= j < |s.awaited| ==> s.awaited[j] < |s.slots|)
    && (!s.inline ==> s.awaited == [])
    && (forall j, k :: 0 <= j < k < |s.awaited| ==> s.awaited[j] != s.awaited[k])
  }

  /** Nothing of the run is left in the slot but, perhaps, its registrations and an orphaned Completion. */
  predicate Parked(x: Slot) { Still(x) && InFlight(x) == 0 }

  predicate Removed(x: Slot) { x.callback.Unregistered? && x.timer.Off? }

  ghost predicate PhaseOk(s: State) {
    && (!s.phase.Active? ==> forall i {:trigger s.slots[i]} :: 0 <= i < |s.slots| ==> Parked(s.slots[i]))
    && (s.phase.Resting? || s.phase.Joining? ==>
          forall i {:trigger s.slots[i]} :: 0 <= i < |s.slots| ==> Removed(s.slots[i]))
    && (s.phase.Ending? ==> s.phase.next <= |s.slots|)
    && (s.phase.Ending? ==>
          forall i {:trigger s.slots[i]} :: 0 <= i < s.phase.next && i < |s.slots| ==> Removed(s.slots[i]))
  }

  ghost predicate Inv(s: State) {
    SlotsOk(s) && CountsOk(s) && LedgerOk(s) && AwaitedOk(s) && PhaseOk(s)
  }

  // ---- A move on one slot ----

  lemma SlotStepSlots(s: State, i: nat, m: Move)
    requires SlotsOk(s) && LedgerOk(s) && Enabled(s, OnSlot(i, m))
    ensures SlotsOk(SlotStep(s, i, m))
  {
    hide SlotOk, Can, After, HoldsLedger;
    MoveKeeps(s.inline, s.ledger.None?, s.slots[i], m);
  }

  lemma SlotStepCounts(s: State, i: nat, m: Move)
    requires SlotsOk(s) && CountsOk(s) && Enabled(s, OnSlot(i, m))
    ensures CountsOk(SlotStep(s, i, m))
  {
    hide SlotOk, Can, After, InFlight, OrphanCount, Holding, InFlightChange, OrphanChange;
    var x := s.slots[i];
    var y := After(s.inline, s.ledger.None?, x, m);
    SharesMove(s.inline, s.ledger.None?, x, m);
    InFlightsUpdate(s.slots, i, y);
    RecordedUpdate(s.slots, i, y);
  }

  /** How the ledger's lock and the awaited list see the move `m` from `x` to `y`. */
  predicate FinishFollows(x: Slot, y: Slot, m: Move) {
    && (HoldsLedger(y) <==> (m.MarkOrphan? && x.outcome.Stopped? && !x.released) || (HoldsLedger(x) && !m.CountOrphan?))
    && (y.finish.Listed? <==> m.List? || (x.finish.Listed? && !m.TakeListed?))
  }

  lemma BodyFollows(inline: bool, free: bool, x: Slot, m: Move)
    requires SlotOk(x) && Can(inline, free, x, m) && IsBodyMove(m)
    ensures FinishFollows(x, BodyMove(x, m), m)
  {
    hide StopOk, OutcomeOk, EarlyOk, DeliveryOk, ResultOk, OrphanOk;
  }

  lemma HandleFollows(inline: bool, free: bool, x: Slot, m: Move)
    requires Can(inline, free, x, m) && IsHandleMove(m)
    ensures FinishFollows(x, HandleMove(x, m), m)
  {
  }

  lemma StopFollows(inline: bool, free: bool, x: Slot, m: Move)
    requires Can(inline, free, x, m) && IsStopMove(m)
    ensures FinishFollows(x, StopMove(x, m), m)
  {
  }

  lemma DeliveryFollows(inline: bool, free: bool, x: Slot, m: Move)
    requires SlotOk(x) && Can(inline, free, x, m) && IsDeliveryMove(m)
    ensures FinishFollows(x, DeliveryMove(x, m), m)
    ensures m.List? ==> !x.finish.Listed?
  {
    hide SlotOk, DeliveryMove, FinishFollows;
    if m.List? || m.Dispatch? { HandOnFollows(inline, free, x, m); } else { CountingFollows(inline, free, x, m); }
  }

  lemma HandOnFollows(inline: bool, free: bool, x: Slot, m: Move)
    requires SlotOk(x) && Can(inline, free, x, m) && (m.List? || m.Dispatch?)
    ensures FinishFollows(x, DeliveryMove(x, m), m) && x.finish.NotFinished?
  {
    hide StopOk, OutcomeOk, EarlyOk, DeliveryOk, ResultOk, OrphanOk;
  }

  lemma CountingFollows(inline: bool, free: bool, x: Slot, m: Move)
    requires Can(inline, free, x, m) && (m.CountDelivery? || m.FinishReturns? || m.Uncount?)
    ensures FinishFollows(x, DeliveryMove(x, m), m)
  {
  }

  lemma FinisherFollows(inline: bool, free: bool, x: Slot, m: Move)
    requires Can(inline, free, x, m) && !IsBodyMove(m) && !IsHandleMove(m) && !IsStopMove(m) && !IsDeliveryMove(m)
    ensures FinishFollows(x, FinishMove(x, m), m)
  {
  }

  lemma FinishAfter(inline: bool, free: bool, x: Slot, m: Move)
    requires SlotOk(x) && Can(inline, free, x, m)
    ensures FinishFollows(x, After(inline, free, x, m), m)
    ensures m.List? ==> !x.finish.Listed?
  {
    hide SlotOk, Can, BodyMove, HandleMove, StopMove, DeliveryMove, FinishMove, FinishFollows;
    if IsBodyMove(m) { BodyFollows(inline, free, x, m); }
    else if IsHandleMove(m) { HandleFollows(inline, free, x, m); }
    else if IsStopMove(m) { StopFollows(inline, free, x, m); }
    else if IsDeliveryMove(m) { DeliveryFollows(inline, free, x, m); }
    else { FinisherFollows(inline, free, x, m); }
  }

  lemma LedgerMoves(inline: bool, free: bool, x: Slot, m: Move)
    requires Can(inline, free, x, m)
    ensures m.MarkOrphan? && x.outcome.Stopped? ==> free
    ensures m.CountOrphan? ==> HoldsLedger(x)
    ensures m.List? ==> inline
  {
  }

  lemma SlotStepLedger(s: State, i: nat, m: Move)
    requires SlotsOk(s) && LedgerOk(s) && Enabled(s, OnSlot(i, m))
    ensures LedgerOk(SlotStep(s, i, m))
  {
    hide SlotOk, Can, After, HoldsLedger;
    var x := s.slots[i];
    var t := SlotStep(s, i, m);
    FinishAfter(s.inline, s.ledger.None?, x, m);
    LedgerMoves(s.inline, s.ledger.None?, x, m);
    forall j {:trigger t.slots[j]} | 0 <= j < |t.slots| ensures HoldsLedger(t.slots[j]) <==> t.ledger == Some(j) {
      assert HoldsLedger(s.slots[j]) <==> s.ledger == Some(j);
    }
  }

  lemma SlotStepAwaited(s: State, i: nat, m: Move)
    requires SlotsOk(s) && AwaitedOk(s) && Enabled(s, OnSlot(i, m))
    ensures AwaitedOk(SlotStep(s, i, m))
  {
    hide SlotOk, Can, After;
    var x := s.slots[i];
    var t := SlotStep(s, i, m);
    FinishAfter(s.inline, s.ledger.None?, x, m);
    LedgerMoves(s.inline, s.ledger.None?, x, m);
    if m.TakeListed? { assert s.awaited == [i] + t.awaited; }
    forall j {:trigger t.slots[j]} | 0 <= j < |t.slots| ensures t.slots[j].finish.Listed? <==> j in t.awaited {
      assert s.slots[j].finish.Listed? <==> j in s.awaited;
    }
  }

  /** A parked slot's Completion may still be signalled or released, and its registrations may still fire in vain. */
  lemma ParkedMoves(inline: bool, free: bool, x: Slot, m: Move)
    requires SlotOk(x) && Can(inline, free, x, m) && Parked(x) && !m.Check?
    ensures IsHandleMove(m) || IsStopMove(m) || m.Leave?
  {
    hide StopOk, OutcomeOk, EarlyOk, DeliveryOk, ResultOk, OrphanOk;
  }

  lemma HandleSame(inline: bool, free: bool, x: Slot, m: Move)
    requires Can(inline, free, x, m) && IsHandleMove(m)
    ensures var y := HandleMove(x, m);
      y.body == x.body && y.finish == x.finish && y.callback == x.callback && y.timer == x.timer
      && (y.handle.Delivering? ==> m.SignalArrives? && x.handle.Written?)
  {
  }

  lemma ParkedHandle(inline: bool, free: bool, x: Slot, m: Move)
    requires SlotOk(x) && Can(inline, free, x, m) && Parked(x) && IsHandleMove(m)
    ensures Parked(HandleMove(x, m)) && (Removed(x) ==> Removed(HandleMove(x, m)))
  {
    hide SlotOk, HandleMove, Can;
    ParkedArrived(x);
    HandleSame(inline, free, x, m);
  }

  lemma ParkedArrived(x: Slot)
    requires SlotOk(x) && Parked(x)
    ensures !x.handle.Won? && !x.handle.Written? && !x.callback.StopWon? && !x.callback.StopWritten?
  {
    hide StopOk, DeliveryOk, ResultOk, OrphanOk;
  }

  lemma ParkedStop(inline: bool, free: bool, x: Slot, m: Move)
    requires SlotOk(x) && Can(inline, free, x, m) && Parked(x) && IsStopMove(m)
    ensures Parked(StopMove(x, m)) && (Removed(x) ==> Removed(StopMove(x, m)))
  {
    hide SlotOk;
    ParkedArrived(x);
  }

  lemma ParkedLeaves(x: Slot)
    requires Parked(x)
    ensures Parked(BodyMove(x, Leave)) && (Removed(x) ==> Removed(BodyMove(x, Leave)))
  {
  }

  lemma ParkedStays(inline: bool, free: bool, x: Slot, m: Move)
    requires SlotOk(x) && Can(inline, free, x, m) && Parked(x) && !m.Check?
    ensures Parked(After(inline, free, x, m))
    ensures Removed(x) ==> Removed(After(inline, free, x, m))
  {
    hide SlotOk, Can, Parked, Removed, HandleMove, StopMove, BodyMove;
    ParkedMoves(inline, free, x, m);
    if IsHandleMove(m) { ParkedHandle(inline, free, x, m); }
    else if IsStopMove(m) { ParkedStop(inline, free, x, m); }
    else { ParkedLeaves(x); }
  }

  lemma SlotStepPhase(s: State, i: nat, m: Move)
    requires SlotsOk(s) && PhaseOk(s) && Enabled(s, OnSlot(i, m))
    ensures PhaseOk(SlotStep(s, i, m))
  {
    hide SlotOk, Can, After, Parked, Removed;
    if !s.phase.Active? { ParkedStays(s.inline, s.ledger.None?, s.slots[i], m); }
  }

  // ---- The run's own steps ----

  lemma ParkedFinished(x: Slot)
    requires SlotOk(x) && Parked(x)
    ensures !HoldsLedger(x) && !x.finish.Listed? && !x.finish.Queued? && !x.finish.Finishing?
    ensures x.body.Left? ==> x.finish.Finished?
    ensures !x.handle.Delivering? && !x.callback.StopDelivering?
    ensures !Orphan(x) ==> x.handle.NoHandle? || x.handle.Gone?
  {
  }

  lemma RecordedNonneg(x: Slot)
    requires SlotOk(x)
    ensures Recorded(x) >= 0
  {
    hide StopOk, PartiesOk, OutcomeOk, EarlyOk, DeliveryOk, ResultOk;
  }

  lemma RenewedOk(x: Slot)
    requires SlotOk(x) && Parked(x) && Removed(x) && !Orphan(x)
    ensures SlotOk(Renewed(x)) && InFlight(Renewed(x)) == 0 && Recorded(Renewed(x)) == 0
    ensures !HoldsLedger(Renewed(x)) && !Renewed(x).finish.Listed?
  {
    ParkedFinished(x);
  }

  /** When the join is over no Completion of an earlier run is left. */
  lemma JoinedMeansReleased(s: State, i: nat)
    requires SlotsOk(s) && CountsOk(s) && PhaseOk(s) && s.phase.Joining? && s.orphans == 0 && i < |s.slots|
    ensures !Orphan(s.slots[i])
  {
    hide SlotOk, Parked, HoldsLedger, Orphan;
    forall j | 0 <= j < |s.slots| ensures Recorded(s.slots[j]) >= 0 { RecordedNonneg(s.slots[j]); }
    RecordedZero(s.slots);
    assert Recorded(s.slots[i]) == 0;
    ParkedFinished(s.slots[i]);
  }

  lemma StartRunKeeps(s: State, inline: bool)
    requires Inv(s) && Enabled(s, StartRun(inline))
    ensures Inv(Step(s, StartRun(inline)))
  {
    hide SlotOk, Parked, HoldsLedger, Orphan, Renewed, Recorded, InFlight, Removed;
    var t := Step(s, StartRun(inline));
    forall i | 0 <= i < |s.slots|
      ensures SlotOk(t.slots[i]) && InFlight(t.slots[i]) == 0 && Recorded(t.slots[i]) == 0
      ensures !HoldsLedger(t.slots[i]) && !t.slots[i].finish.Listed? && s.ledger != Some(i)
    {
      JoinedMeansReleased(s, i);
      ParkedFinished(s.slots[i]);
      assert t.slots[i] == Renewed(s.slots[i]);
      RenewedOk(s.slots[i]);
    }
    InFlightsZero(t.slots);
    RecordedZero(t.slots);
  }

  lemma EndRunKeeps(s: State)
    requires Inv(s) && Enabled(s, EndRun)
    ensures Inv(Step(s, EndRun))
  {
    hide SlotOk, HoldsLedger, InFlight;
    InFlightsZero(s.slots);
  }

  lemma DroppedOk(x: Slot)
    requires SlotOk(x) && Parked(x) && CallbackIdle(x) && !x.timer.Expiring?
    ensures SlotOk(Dropped(x)) && Parked(Dropped(x)) && Removed(Dropped(x))
    ensures InFlight(Dropped(x)) == InFlight(x) && Recorded(Dropped(x)) == Recorded(x)
    ensures HoldsLedger(Dropped(x)) == HoldsLedger(x) && Dropped(x).finish == x.finish
  {
    ParkedFinished(x);
  }

  lemma ReleasePhase(s: State)
    requires SlotsOk(s) && PhaseOk(s) && Enabled(s, ReleaseNext)
    ensures PhaseOk(Step(s, ReleaseNext))
  {
    hide SlotOk, Parked, Removed, Dropped, CallbackIdle, Recorded, InFlight, HoldsLedger;
    if s.phase.next < |s.slots| { DroppedOk(s.slots[s.phase.next]); }
  }

  lemma ReleaseNextKeeps(s: State)
    requires Inv(s) && Enabled(s, ReleaseNext)
    ensures Inv(Step(s, ReleaseNext))
  {
    hide SlotOk, Parked, HoldsLedger, Recorded, InFlight, Removed, Dropped;
    ReleasePhase(s);
    var k := s.phase.next;
    if k < |s.slots| {
      assert Parked(s.slots[k]);
      hide PhaseOk;
      DroppedOk(s.slots[k]);
      InFlightsUpdate(s.slots, k, Dropped(s.slots[k]));
      RecordedUpdate(s.slots, k, Dropped(s.slots[k]));
    }
  }

  lemma InitHolds(n: nat)
    ensures Inv(Init(n))
  {
    hide SlotOk, InFlight, Orphan, HoldsLedger, Recorded;
    var s := Init(n);
    forall i | 0 <= i < n
      ensures SlotOk(s.slots[i]) && InFlight(s.slots[i]) == 0 && Recorded(s.slots[i]) == 0 && !HoldsLedger(s.slots[i])
    {
      UnusedOk(s.slots[i]);
      UnusedRecorded(s.slots[i]);
    }
    InFlightsZero(s.slots);
    RecordedZero(s.slots);
  }

  lemma UnusedRecorded(x: Slot)
    requires !Orphan(x) && !HoldsLedger(x)
    ensures Recorded(x) == 0
  {
  }

  lemma StepKeeps(s: State, a: Action)
    requires Inv(s) && Enabled(s, a)
    ensures Inv(Step(s, a))
  {
    hide SlotsOk, CountsOk, LedgerOk, AwaitedOk, PhaseOk, Enabled, SlotStep;
    match a
    case OnSlot(i, m) =>
      SlotStepSlots(s, i, m);
      SlotStepCounts(s, i, m);
      SlotStepLedger(s, i, m);
      SlotStepAwaited(s, i, m);
      SlotStepPhase(s, i, m);
    case BeginRun => BeginRunKeeps(s);
    case StartRun(inline) => StartRunKeeps(s, inline);
    case EndRun => EndRunKeeps(s);
    case ReleaseNext => ReleaseNextKeeps(s);
  }

  lemma BeginRunKeeps(s: State)
    requires Inv(s) && Enabled(s, BeginRun)
    ensures Inv(Step(s, BeginRun))
  {
    hide SlotOk, HoldsLedger;
  }
}
