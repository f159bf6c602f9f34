/** One deferred job: what the three parties of a run - the body, the Completion and the stop source - and the
    thread that finishes the job do to its slot, each atomic access one move. */
module Deferred {
  import opened Jobs

  datatype Outcome = Undecided | Signalled | Stopped

  /** Where the thread running the job's body stands. */
  datatype Body =
    | Waiting       // not dispatched in this run
    | Refused(error: PipelineError)   // finished before it started: stop already requested, or no deadline service
    | Passed        // the stop check passed: about to reset the slot
    | Prepared      // slot reset: about to arm the timer
    | Counting      // about to count itself in flight
    | Registering   // about to register for the stop
    | InCallback    // the stop had come first: stop() runs on this thread
    | Registered    // about to create the Completion and call the body
    | InBody
    | Returned      // about to look whether the outcome is decided
    | Arriving      // about to give up the body's party
    | Left

  /** deliverDeferred() on a thread the library may not own. */
  datatype Delivery =
    | Start
    | Dispatching   // counted in flight: inside executor.dispatch()
    | OwnFinish     // the executor refused: finishing the job on this thread
    | Uncounting

  datatype Handle =
    | NoHandle | Held
    | Signalling(v: Result)   // about to claim the outcome
    | Lost                    // about to set the released flag
    | Releasing               // the flag showed an orphan: about to record the release in the ledger
    | Won(v: Result)          // about to write the result
    | Written                 // about to give up the winner's party
    | Delivering(d: Delivery)
    | Gone

  datatype Callback =
    | Unregistered | Armed | Firing | StopWon | StopWritten | StopDelivering(sd: Delivery) | StopReturned

  datatype Timer = Off | Ticking | Expiring

  /** Who finishes the job, and the next thing finishDeferred() does. */
  datatype By = ByBody | ByExecutor | ByRunThread | ByForeign
  datatype Stage = AtCallback | AtTimer | AtOrphan | AtCount | AtFinish | AtUncount
  datatype Finish = NotFinished | Listed | Queued | Finishing(by_: By, stage: Stage) | Finished

  /** Who decided the outcome. */
  datatype Claim = NoClaim | BySignal(v: Result) | ByStop

  datatype Slot = Slot(
    outcome: Outcome, parties: int, released: bool, orphaned: bool, result: Result,
    stopRequested: bool, expired: bool,
    body: Body, handle: Handle, callback: Callback, timer: Timer, finish: Finish,
    leaving: nat,     // callables of the job that have only to return to the executor
    // History of this run:
    claim: Claim,
    late: bool,       // the deadline had expired when the winner wrote the result
    finishes: nat, finishedWith: Option<Result>)

  datatype Arming = NoTimeout | Accepted | NoService

  datatype Move =
    // The thread that runs the body.
    | Check | Reset | Arm(arming: Arming) | Count | Register | CallbackReturns | Begin | BodyReturns | Look | Arrive
    // A callable of the job returns to the executor.
    | Leave
    // The Completion.
    | Signal(v: Result) | Claim | Write | SignalArrives | SetReleased | RecordRelease
    // The stop callback and the timer.
    | RequestStop | Fire | StopClaims | StopWrites | StopArrives | Expire | ExpiryReturns
    // deliverDeferred() by the Completion or the stop callback.
    | List(byStop: bool) | CountDelivery(byStop: bool) | Dispatch(byStop: bool, accepted: bool)
    | FinishReturns(byStop: bool) | Uncount(byStop: bool)
    // finishDeferred().
    | TakeListed | Continue | DropCallback | DropTimer | MarkOrphan | CountOrphan | FinishJob | EndFinish

  function Fresh(): Slot {
    Slot(Undecided, 0, false, false, Ok, false, false, Waiting, NoHandle, Unregistered, Off, NotFinished,
         0, NoClaim, false, 0, None)
  }

  function DeliveryOf(x: Slot, byStop: bool): Option<Delivery> {
    if byStop then (if x.callback.StopDelivering? then Some(x.callback.sd) else None)
    else if x.handle.Delivering? then Some(x.handle.d) else None
  }

  function SetDelivery(x: Slot, byStop: bool, d: Delivery): Slot {
    if byStop then x.(callback := StopDelivering(d)) else x.(handle := Delivering(d))
  }

  function EndDelivery(x: Slot, byStop: bool): Slot {
    if byStop then x.(callback := StopReturned) else x.(handle := Gone)
  }

  /** The callback is not running, so removing it does not wait. */
  predicate CallbackIdle(x: Slot) {
    x.callback.Unregistered? || x.callback.Armed? || x.callback.StopReturned?
  }

  predicate At(x: Slot, stage: Stage) {
    x.finish.Finishing? && x.finish.stage == stage
  }

  /** `inline`: the run calls jobs on its own thread. `free`: nobody holds the ledger's lock. */
  predicate Can(inline: bool, free: bool, x: Slot, m: Move) {
    match m
    case Check => x.body.Waiting?
    case Reset => x.body.Passed?
    case Arm(_) => x.body.Prepared?
    case Count => x.body.Counting?
    case Register => x.body.Registering?
    case CallbackReturns => x.body.InCallback? && x.callback.StopReturned?
    case Begin => x.body.Registered?
    case BodyReturns => x.body.InBody?
    case Look => x.body.Returned?
    case Arrive => x.body.Arriving?
    case Leave => x.leaving > 0
    case Signal(_) => x.handle.Held?
    case Claim => x.handle.Signalling?
    case Write => x.handle.Won?
    case SignalArrives => x.handle.Written?
    case SetReleased => x.handle.Lost?
    case RecordRelease => x.handle.Releasing? && free
    case RequestStop => true
    case Fire => x.callback.Armed? && x.stopRequested
    case StopClaims => x.callback.Firing?
    case StopWrites => x.callback.StopWon?
    case StopArrives => x.callback.StopWritten?
    case Expire => x.timer.Ticking?
    case ExpiryReturns => x.timer.Expiring?
    case List(byStop) => inline && DeliveryOf(x, byStop) == Some(Start)
    case CountDelivery(byStop) => !inline && DeliveryOf(x, byStop) == Some(Start)
    case Dispatch(byStop, _) => DeliveryOf(x, byStop) == Some(Dispatching)
    case FinishReturns(byStop) => DeliveryOf(x, byStop) == Some(OwnFinish) && x.finish.Finished?
    case Uncount(byStop) => DeliveryOf(x, byStop) == Some(Uncounting)
    case TakeListed => x.finish.Listed?
    case Continue => x.finish.Queued?
    case DropCallback => At(x, AtCallback) && CallbackIdle(x)
    case DropTimer => At(x, AtTimer) && !x.timer.Expiring?
    case MarkOrphan => At(x, AtOrphan) && (x.outcome.Stopped? ==> free)
    case CountOrphan => At(x, AtCount)
    case FinishJob => At(x, AtFinish)
    case EndFinish => At(x, AtUncount)
  }

  function StartFinish(x: Slot, who: By, stage: Stage): Slot {
    x.(finish := Finishing(who, stage), finishes := x.finishes + 1)
  }

  function NextStage(x: Slot, stage: Stage): Slot
    requires x.finish.Finishing?
  {
    x.(finish := Finishing(x.finish.by_, stage))
  }

  function BodyMove(x: Slot, m: Move): Slot {
    match m
    case Check => x.(body := if x.stopRequested then Refused(Cancelled) else Passed)
    case Reset => x.(outcome := Undecided, parties := 2, released := false, orphaned := false, result := Ok,
                     expired := false, handle := NoHandle, claim := NoClaim, late := false, body := Prepared)
    case Arm(NoTimeout) => x.(body := Counting)
    case Arm(Accepted) => x.(body := Counting, timer := Ticking)
    case Arm(NoService) => x.(body := Refused(DeadlineUnavailable))
    case Count => x.(body := Registering)
    case Register => if x.stopRequested then x.(callback := Firing, body := InCallback)
                     else x.(callback := Armed, body := Registered)
    case CallbackReturns => x.(body := Registered)
    case Begin => x.(handle := Held, body := InBody)
    case BodyReturns => x.(body := Returned)
    case Look => x.(body := Arriving)
    case Leave => x.(leaving := if x.leaving > 0 then x.leaving - 1 else 0)
    case _ => // Arrive
      var y := x.(parties := x.parties - 1, body := Left);
      if x.parties == 1 then StartFinish(y, ByBody, AtCallback) else y.(leaving := y.leaving + 1)
  }

  function HandleMove(x: Slot, m: Move): Slot
    requires m.Claim? ==> x.handle.Signalling?
    requires m.Write? ==> x.handle.Won?
  {
    match m
    case Signal(v) => x.(handle := Signalling(v))
    case Claim => if x.outcome.Undecided?
                  then x.(outcome := Signalled, handle := Won(x.handle.v), claim := BySignal(x.handle.v))
                  else x.(handle := Lost)
    case Write => x.(result := if x.expired then Err(Timeout) else x.handle.v, late := x.expired, handle := Written)
    case SignalArrives =>
      x.(parties := x.parties - 1, handle := if x.parties == 1 then Delivering(Start) else Gone)
    case SetReleased => x.(released := true, handle := if x.orphaned then Releasing else Gone)
    case _ => x.(handle := Gone) // RecordRelease
  }

  function StopMove(x: Slot, m: Move): Slot {
    match m
    case RequestStop => x.(stopRequested := true)
    case Fire => x.(callback := Firing)
    case StopClaims => if x.outcome.Undecided?
                       then x.(outcome := Stopped, callback := StopWon, claim := ByStop)
                       else x.(callback := StopReturned)
    case StopWrites =>
      x.(result := Err(if x.expired then Timeout else Cancelled), late := x.expired, callback := StopWritten)
    case StopArrives =>
      x.(parties := x.parties - 1, callback := if x.parties == 1 then StopDelivering(Start) else StopReturned)
    case Expire => x.(expired := true, timer := Expiring)
    case _ => x.(stopRequested := true, timer := Off) // ExpiryReturns
  }

  function DeliveryMove(x: Slot, m: Move): Slot {
    match m
    case List(byStop) => EndDelivery(x, byStop).(finish := Listed)
    case CountDelivery(byStop) => SetDelivery(x, byStop, Dispatching)
    case Dispatch(byStop, accepted) =>
      if accepted then SetDelivery(x, byStop, Uncounting).(finish := Queued)
      else StartFinish(SetDelivery(x, byStop, OwnFinish), ByForeign, AtOrphan)
    case FinishReturns(byStop) => SetDelivery(x, byStop, Uncounting)
    case Uncount(byStop) => EndDelivery(x, byStop)
    case _ => x
  }

  /** The finish runs inside a callable that the executor was given. */
  predicate OnExecutor(who: By) { who.ByBody? || who.ByExecutor? }

  function FinishMove(x: Slot, m: Move): Slot
    requires !m.TakeListed? && !m.Continue? ==> x.finish.Finishing?
  {
    match m
    case TakeListed => StartFinish(x, ByRunThread, AtCallback)
    case Continue => StartFinish(x, ByExecutor, AtCallback)
    case DropCallback => NextStage(x.(callback := Unregistered), AtTimer)
    case DropTimer => NextStage(x.(timer := Off), AtOrphan)
    case MarkOrphan => if x.outcome.Stopped? && !x.released then NextStage(x.(orphaned := true), AtCount)
                       else NextStage(x, AtFinish)
    case CountOrphan => NextStage(x, AtFinish)
    case FinishJob => NextStage(x.(finishedWith := Some(x.result)), AtUncount)
    case _ => x.(finish := Finished, leaving := x.leaving + if OnExecutor(x.finish.by_) then 1 else 0) // EndFinish
  }

  predicate IsBodyMove(m: Move) {
    m.Check? || m.Reset? || m.Arm? || m.Count? || m.Register? || m.CallbackReturns? || m.Begin? || m.BodyReturns?
    || m.Look? || m.Arrive? || m.Leave?
  }
  predicate IsHandleMove(m: Move) {
    m.Signal? || m.Claim? || m.Write? || m.SignalArrives? || m.SetReleased? || m.RecordRelease?
  }
  predicate IsStopMove(m: Move) {
    m.RequestStop? || m.Fire? || m.StopClaims? || m.StopWrites? || m.StopArrives? || m.Expire? || m.ExpiryReturns?
  }
  predicate IsDeliveryMove(m: Move) {
    m.List? || m.CountDelivery? || m.Dispatch? || m.FinishReturns? || m.Uncount?
  }

  function After(inline: bool, free: bool, x: Slot, m: Move): Slot
    requires Can(inline, free, x, m)
  {
    if IsBodyMove(m) then BodyMove(x, m)
    else if IsHandleMove(m) then HandleMove(x, m)
    else if IsStopMove(m) then StopMove(x, m)
    else if IsDeliveryMove(m) then DeliveryMove(x, m)
    else FinishMove(x, m)
  }

  // ---- What a move does beside the slot ----

  function InFlightChange(m: Move): int {
    match m
    case Count => 1
    case CountDelivery(_) => 1
    case Uncount(_) => -1
    case EndFinish => -1
    case _ => 0
  }

  function OrphanChange(m: Move): int {
    match m
    case CountOrphan => 1
    case RecordRelease => -1
    case _ => 0
  }

  /** The slot's finisher holds the ledger's lock between its two accesses. */
  predicate HoldsLedger(x: Slot) { At(x, AtCount) }

  // ---- Invariants of one slot ----

  /** The body has been counted in flight in this run. */
  predicate Started(x: Slot) {
    x.body.Registering? || x.body.InCallback? || x.body.Registered? || x.body.InBody? || x.body.Returned?
    || x.body.Arriving? || x.body.Left?
  }

  /** The slot belongs to this run: it has been reset, and the job was not refused after all. */
  predicate Live(x: Slot) { x.body.Prepared? || x.body.Counting? || Started(x) }

  function BodyParty(x: Slot): int { if x.body.Left? then 0 else 1 }

  /** The outcome is open, or its winner has not arrived yet. */
  function WinnerParty(x: Slot): int {
    if x.outcome.Undecided? || x.handle.Won? || x.handle.Written? || x.callback.StopWon? || x.callback.StopWritten?
    then 1 else 0
  }

  predicate Undelivered(d: Delivery) { d.Start? || d.Dispatching? }

  /** Someone still has to hand the finish over. */
  predicate DeliveryDue(x: Slot) {
    (x.handle.Delivering? && Undelivered(x.handle.d)) || (x.callback.StopDelivering? && Undelivered(x.callback.sd))
  }

  /** Two arrivals, and only the second makes the job finish. */
  predicate PartiesOk(x: Slot) {
    && (Live(x) ==> x.parties == BodyParty(x) + WinnerParty(x))
    && (!Live(x) ==> x.finish.NotFinished? && !DeliveryDue(x))
    && (Live(x) ==> (x.parties == 0 <==> !x.finish.NotFinished? || DeliveryDue(x)))
    && (DeliveryDue(x) ==> x.finish.NotFinished?)
    && x.finishes == (if x.finish.Finishing? || x.finish.Finished? then 1 else 0)
  }

  /** Who may still act, by outcome. */
  predicate OutcomeOk(x: Slot) {
    && (Live(x) ==> match x.outcome
        case Undecided =>
          && x.claim.NoClaim? && !x.handle.Lost? && !x.handle.Releasing? && !x.handle.Gone?
          && (x.handle.NoHandle? || x.handle.Held? || x.handle.Signalling?)
          && (x.callback.Unregistered? || x.callback.Armed? || x.callback.Firing?)
        case Signalled =>
          && x.claim.BySignal?
          && (x.handle.Won? || x.handle.Written? || x.handle.Delivering? || x.handle.Gone?)
          && !x.callback.StopWon? && !x.callback.StopWritten? && !x.callback.StopDelivering?
        case Stopped =>
          && x.claim.ByStop?
          && !x.handle.Won? && !x.handle.Written? && !x.handle.Delivering?
          && !x.callback.Armed? && !x.callback.Firing?)
    && (x.handle.Won? ==> x.claim == BySignal(x.handle.v))
  }

  /** The slot before its job started: nobody else can touch it. */
  predicate EarlyOk(x: Slot) {
    && (!Live(x) ==> (x.handle.NoHandle? || x.handle.Gone?) && x.timer.Off?)
    && (x.body.Prepared? ==> x.timer.Off?)
    && (x.body.Prepared? || x.body.Counting? || x.body.Registering? ==> x.outcome.Undecided?)
    && (!Started(x) || x.body.Registering? ==> x.callback.Unregistered?)
    && (x.body.Prepared? || x.body.Counting? || x.body.Registering? || x.body.InCallback? || x.body.Registered?
        ==> x.handle.NoHandle?)
    && (x.body.InBody? || x.body.Returned? || x.body.Arriving? || x.body.Left? ==> !x.handle.NoHandle?)
    && (x.body.Registered? || x.body.InBody? || x.body.Returned? || x.body.Arriving? ==> !x.callback.Unregistered?)
    && (x.body.InCallback? ==> !x.callback.Armed? && !x.callback.Unregistered?)
  }

  /** Whose delivery ends how. */
  predicate DeliveryOk(x: Slot) {
    var own := x.handle == Delivering(OwnFinish) || x.callback == StopDelivering(OwnFinish);
    && (x.finish.Finishing? && x.finish.by_.ByForeign? ==> own && !x.finish.stage.AtCallback? && !x.finish.stage.AtTimer?)
    && (own ==> x.finish.Finished? || (x.finish.Finishing? && x.finish.by_.ByForeign?))
    && (x.handle == Delivering(Uncounting) || x.callback == StopDelivering(Uncounting) ==>
          x.finish.Queued? || x.finish.Finished? || (x.finish.Finishing? && x.finish.by_.ByExecutor?))
    && (x.finish.Finishing? && x.finish.by_.ByBody? ==> !x.handle.Delivering? && !x.callback.StopDelivering?)
    && (x.finish.Finishing? && !x.finish.by_.ByForeign? && !x.finish.stage.AtCallback? ==> x.callback.Unregistered?)
  }

  /** The result finishCold() is given, by who decided and whether the deadline had expired when the winner wrote:
      an expiry that came first owns the result. */
  predicate Explains(claim: Claim, late: bool, r: Result) {
    match claim
    case NoClaim => false
    case BySignal(v) => r == if late then Err(Timeout) else v
    case ByStop => r == if late then Err(Timeout) else Err(Cancelled)
  }

  predicate ResultOk(x: Slot) {
    && (Live(x) && WinnerParty(x) == 0 ==> Explains(x.claim, x.late, x.result))
    && (x.handle.Written? || x.callback.StopWritten? ==> Explains(x.claim, x.late, x.result))
    && (x.finishedWith.Some? <==> At(x, AtUncount) || x.finish.Finished?)
    && (x.finishedWith.Some? ==> x.finishedWith.value == x.result)
  }

  /** The finisher has dealt with a Completion that outlives the job. */
  predicate PastOrphan(x: Slot) {
    x.finish.Finished? || At(x, AtCount) || At(x, AtFinish) || At(x, AtUncount)
  }

  predicate OrphanOk(x: Slot) {
    && (x.body.Prepared? ==> !x.released && !x.orphaned)
    && (Live(x) && PastOrphan(x) && x.outcome.Stopped? ==> x.orphaned || x.released)
    && (x.orphaned && Live(x) ==> PastOrphan(x) && x.outcome.Stopped?)
    && (At(x, AtCount) ==> Orphan(x))
    && (x.released && Live(x) ==> x.handle.Releasing? || x.handle.Gone?)
    && (x.handle.Releasing? ==> x.orphaned)
    && (Live(x) && x.outcome.Stopped? && (x.handle.Gone? || x.handle.Releasing?) ==> x.released)
  }

  /** A stop and an expired deadline reach the job: an expiry requests the stop, and a job that awaits its Completion is
      registered for it. Without a stop, only a missing deadline service refuses a job. */
  predicate StopOk(x: Slot) {
    && (x.body.Refused? ==> x.body.error == DeadlineUnavailable || (x.body.error == Cancelled && x.stopRequested))
    && (Live(x) && x.expired ==> x.stopRequested || x.timer.Expiring?)
    && (Live(x) && x.late ==> x.expired)
    && (x.body.Prepared? ==> !x.expired)
    && (x.body.Left? && x.outcome.Undecided? ==> !x.callback.Unregistered?)
  }

  predicate CoreOk(x: Slot) {
    PartiesOk(x) && OutcomeOk(x) && EarlyOk(x) && DeliveryOk(x) && ResultOk(x) && OrphanOk(x)
  }

  predicate SlotOk(x: Slot) { CoreOk(x) && StopOk(x) }

  /** What the slot adds to the run's count of deferred work in flight. */
  function InFlight(x: Slot): nat {
    (if Started(x) && !x.finish.Finished? then 1 else 0)
    + (if x.handle.Delivering? && !x.handle.d.Start? then 1 else 0)
    + (if x.callback.StopDelivering? && !x.callback.sd.Start? then 1 else 0)
  }

  /** The slot is an orphan whose release is not recorded in the ledger yet. */
  predicate Orphan(x: Slot) { x.orphaned && !x.handle.NoHandle? && !x.handle.Gone? }

  function OrphanCount(x: Slot): nat { if Orphan(x) then 1 else 0 }
  function Holding(x: Slot): nat { if HoldsLedger(x) then 1 else 0 }

  // ---- Every move keeps them ----

  lemma UnusedOk(x: Slot)
    requires x.body.Waiting? && x.handle.NoHandle? && x.callback.Unregistered? && x.timer.Off?
    requires x.finish.NotFinished? && x.finishes == 0 && x.finishedWith.None? && !x.orphaned && !x.released
    ensures SlotOk(x) && InFlight(x) == 0 && !Orphan(x) && !HoldsLedger(x)
  {
  }

  lemma StartMoveKeeps(inline: bool, free: bool, x: Slot, m: Move)
    requires CoreOk(x) && Can(inline, free, x, m)
    requires m.Check? || m.Reset? || m.Arm? || m.Count?
    ensures CoreOk(BodyMove(x, m))
  {
  }

  lemma RunMoveKeeps(inline: bool, free: bool, x: Slot, m: Move)
    requires CoreOk(x) && Can(inline, free, x, m)
    requires m.Register? || m.CallbackReturns? || m.Begin? || m.BodyReturns? || m.Look? || m.Leave?
    ensures CoreOk(BodyMove(x, m))
  {
  }

  lemma ArriveKeeps(inline: bool, free: bool, x: Slot, m: Move)
    requires CoreOk(x) && m.Arrive? && Can(inline, free, x, m)
    ensures CoreOk(BodyMove(x, m))
  {
  }

  lemma BodyMoveKeeps(inline: bool, free: bool, x: Slot, m: Move)
    requires CoreOk(x) && IsBodyMove(m) && Can(inline, free, x, m)
    ensures CoreOk(BodyMove(x, m))
  {
    hide CoreOk, BodyMove;
    if m.Check? || m.Reset? || m.Arm? || m.Count? { StartMoveKeeps(inline, free, x, m); }
    else if m.Arrive? { ArriveKeeps(inline, free, x, m); }
    else { RunMoveKeeps(inline, free, x, m); }
  }

  lemma SignalKeeps(inline: bool, free: bool, x: Slot, m: Move)
    requires CoreOk(x) && (m.Signal? || m.Write?) && Can(inline, free, x, m)
    ensures CoreOk(HandleMove(x, m))
  {
  }

  lemma WinKeeps(inline: bool, free: bool, x: Slot, m: Move)
    requires CoreOk(x) && m.Claim? && Can(inline, free, x, m) && x.outcome.Undecided?
    ensures CoreOk(HandleMove(x, m))
  {
  }

  lemma LoseKeeps(inline: bool, free: bool, x: Slot, m: Move)
    requires CoreOk(x) && m.Claim? && Can(inline, free, x, m) && !x.outcome.Undecided?
    ensures CoreOk(HandleMove(x, m))
  {
  }

  lemma ReleaseKeeps(inline: bool, free: bool, x: Slot, m: Move)
    requires CoreOk(x) && (m.SignalArrives? || m.SetReleased? || m.RecordRelease?) && Can(inline, free, x, m)
    requires free ==> !HoldsLedger(x)
    ensures CoreOk(HandleMove(x, m))
  {
  }

  lemma HandleMoveKeeps(inline: bool, free: bool, x: Slot, m: Move)
    requires CoreOk(x) && IsHandleMove(m) && Can(inline, free, x, m) && (free ==> !HoldsLedger(x))
    ensures CoreOk(HandleMove(x, m))
  {
    hide CoreOk, HandleMove;
    if m.Claim? && x.outcome.Undecided? { WinKeeps(inline, free, x, m); }
    else if m.Claim? { LoseKeeps(inline, free, x, m); }
    else if m.Signal? || m.Write? { SignalKeeps(inline, free, x, m); }
    else { ReleaseKeeps(inline, free, x, m); }
  }

  lemma CallbackMoveKeeps(inline: bool, free: bool, x: Slot, m: Move)
    requires CoreOk(x) && (m.StopWrites? || m.StopArrives?) && Can(inline, free, x, m)
    ensures CoreOk(StopMove(x, m))
  {
  }

  lemma FireKeeps(inline: bool, free: bool, x: Slot, m: Move)
    requires CoreOk(x) && m.Fire? && Can(inline, free, x, m)
    ensures CoreOk(StopMove(x, m))
  {
  }

  lemma StopClaimKeeps(inline: bool, free: bool, x: Slot, m: Move)
    requires CoreOk(x) && m.StopClaims? && Can(inline, free, x, m)
    ensures CoreOk(StopMove(x, m))
  {
  }

  lemma RequestKeeps(inline: bool, free: bool, x: Slot, m: Move)
    requires CoreOk(x) && m.RequestStop? && Can(inline, free, x, m)
    ensures CoreOk(StopMove(x, m))
  {
  }

  lemma ExpiryReturnsKeeps(inline: bool, free: bool, x: Slot, m: Move)
    requires CoreOk(x) && m.ExpiryReturns? && Can(inline, free, x, m)
    ensures CoreOk(StopMove(x, m))
  {
  }

  lemma ExpireKeeps(inline: bool, free: bool, x: Slot, m: Move)
    requires CoreOk(x) && m.Expire? && Can(inline, free, x, m)
    ensures CoreOk(StopMove(x, m))
  {
  }

  lemma StopMoveKeeps(inline: bool, free: bool, x: Slot, m: Move)
    requires CoreOk(x) && IsStopMove(m) && Can(inline, free, x, m)
    ensures CoreOk(StopMove(x, m))
  {
    hide CoreOk, StopMove;
    if m.Expire? { ExpireKeeps(inline, free, x, m); }
    else if m.RequestStop? { RequestKeeps(inline, free, x, m); }
    else if m.ExpiryReturns? { ExpiryReturnsKeeps(inline, free, x, m); }
    else if m.Fire? { FireKeeps(inline, free, x, m); }
    else if m.StopClaims? { StopClaimKeeps(inline, free, x, m); }
    else { CallbackMoveKeeps(inline, free, x, m); }
  }

  lemma ListKeeps(inline: bool, free: bool, x: Slot, m: Move)
    requires CoreOk(x) && m.List? && Can(inline, free, x, m)
    ensures CoreOk(DeliveryMove(x, m))
  {
  }

  lemma AcceptKeeps(inline: bool, free: bool, x: Slot, m: Move)
    requires CoreOk(x) && m.Dispatch? && m.accepted && Can(inline, free, x, m)
    ensures CoreOk(DeliveryMove(x, m))
  {
  }

  lemma RefuseKeeps(inline: bool, free: bool, x: Slot, m: Move)
    requires CoreOk(x) && m.Dispatch? && !m.accepted && Can(inline, free, x, m)
    ensures CoreOk(DeliveryMove(x, m))
  {
  }

  lemma CountDeliveryKeeps(inline: bool, free: bool, x: Slot, m: Move)
    requires CoreOk(x) && m.CountDelivery? && Can(inline, free, x, m)
    ensures CoreOk(DeliveryMove(x, m))
  {
  }

  lemma FinishReturnsKeeps(inline: bool, free: bool, x: Slot, m: Move)
    requires CoreOk(x) && m.FinishReturns? && Can(inline, free, x, m)
    ensures CoreOk(DeliveryMove(x, m))
  {
  }

  lemma UncountKeeps(inline: bool, free: bool, x: Slot, m: Move)
    requires CoreOk(x) && m.Uncount? && Can(inline, free, x, m)
    ensures CoreOk(DeliveryMove(x, m))
  {
  }

  lemma DeliveryMoveKeeps(inline: bool, free: bool, x: Slot, m: Move)
    requires CoreOk(x) && IsDeliveryMove(m) && Can(inline, free, x, m)
    ensures CoreOk(DeliveryMove(x, m))
  {
    hide CoreOk, DeliveryMove;
    if m.List? { ListKeeps(inline, free, x, m); }
    else if m.Dispatch? && m.accepted { AcceptKeeps(inline, free, x, m); }
    else if m.Dispatch? { RefuseKeeps(inline, free, x, m); }
    else if m.CountDelivery? { CountDeliveryKeeps(inline, free, x, m); }
    else if m.FinishReturns? { FinishReturnsKeeps(inline, free, x, m); }
    else { UncountKeeps(inline, free, x, m); }
  }

  lemma TakeKeeps(inline: bool, free: bool, x: Slot, m: Move)
    requires CoreOk(x) && (m.TakeListed? || m.Continue?) && Can(inline, free, x, m)
    ensures CoreOk(FinishMove(x, m))
  {
  }

  lemma DropKeeps(inline: bool, free: bool, x: Slot, m: Move)
    requires CoreOk(x) && (m.DropCallback? || m.DropTimer?) && Can(inline, free, x, m)
    ensures CoreOk(FinishMove(x, m))
  {
  }

  lemma MarkKeeps(inline: bool, free: bool, x: Slot, m: Move)
    requires CoreOk(x) && (m.MarkOrphan? || m.CountOrphan?) && Can(inline, free, x, m)
    ensures CoreOk(FinishMove(x, m))
  {
  }

  lemma EndKeeps(inline: bool, free: bool, x: Slot, m: Move)
    requires CoreOk(x) && (m.FinishJob? || m.EndFinish?) && Can(inline, free, x, m)
    ensures CoreOk(FinishMove(x, m))
  {
  }

  lemma FinishMoveKeeps(inline: bool, free: bool, x: Slot, m: Move)
    requires CoreOk(x) && Can(inline, free, x, m)
    requires !IsBodyMove(m) && !IsHandleMove(m) && !IsStopMove(m) && !IsDeliveryMove(m)
    ensures CoreOk(FinishMove(x, m))
  {
    hide CoreOk, FinishMove;
    if m.TakeListed? || m.Continue? { TakeKeeps(inline, free, x, m); }
    else if m.DropCallback? || m.DropTimer? { DropKeeps(inline, free, x, m); }
    else if m.MarkOrphan? || m.CountOrphan? { MarkKeeps(inline, free, x, m); }
    else { EndKeeps(inline, free, x, m); }
  }

  lemma BodyStopOk(inline: bool, free: bool, x: Slot, m: Move)
    requires CoreOk(x) && StopOk(x) && Can(inline, free, x, m) && IsBodyMove(m)
    ensures StopOk(BodyMove(x, m))
  {
    hide ResultOk, OrphanOk, DeliveryOk;
  }

  lemma HandleStopOk(inline: bool, free: bool, x: Slot, m: Move)
    requires CoreOk(x) && StopOk(x) && Can(inline, free, x, m) && IsHandleMove(m)
    ensures StopOk(HandleMove(x, m))
  {
    hide CoreOk;
  }

  lemma PartyStopOk(inline: bool, free: bool, x: Slot, m: Move)
    requires CoreOk(x) && StopOk(x) && Can(inline, free, x, m) && IsStopMove(m)
    ensures StopOk(StopMove(x, m))
  {
    hide ResultOk, OrphanOk, DeliveryOk, PartiesOk;
  }

  /** What handing the finish over leaves as it was. */
  predicate SameRun(x: Slot, y: Slot) {
    && y.body == x.body && y.outcome == x.outcome && y.claim == x.claim && y.late == x.late && y.result == x.result
    && y.expired == x.expired && y.stopRequested == x.stopRequested && y.timer == x.timer
    && (y.handle == x.handle || (x.handle.Delivering? && (y.handle.Delivering? || y.handle.Gone?)))
    && (y.callback == x.callback
        || (x.callback.StopDelivering? && (y.callback.StopDelivering? || y.callback.StopReturned?)))
  }

  lemma SetDeliverySame(x: Slot, byStop: bool, d: Delivery)
    requires DeliveryOf(x, byStop).Some?
    ensures SameRun(x, SetDelivery(x, byStop, d)) && SameRun(x, EndDelivery(x, byStop))
  {
  }

  lemma FinishSame(x: Slot, y: Slot, z: Slot)
    requires SameRun(x, y) && z == y.(finish := z.finish, finishes := z.finishes)
    ensures SameRun(x, z)
  {
  }

  lemma DeliverySame(inline: bool, free: bool, x: Slot, m: Move)
    requires Can(inline, free, x, m) && IsDeliveryMove(m)
    ensures SameRun(x, DeliveryMove(x, m))
  {
    hide SetDelivery, EndDelivery, DeliveryOf, SameRun;
    var next := if m.CountDelivery? then Dispatching else if m.Dispatch? && !m.accepted then OwnFinish else Uncounting;
    SetDeliverySame(x, m.byStop, next);
    var y := DeliveryMove(x, m);
    if m.List? { FinishSame(x, EndDelivery(x, m.byStop), y); }
    if m.Dispatch? { FinishSame(x, SetDelivery(x, m.byStop, next), y); }
  }

  lemma DeliveryStopOk(inline: bool, free: bool, x: Slot, m: Move)
    requires StopOk(x) && Can(inline, free, x, m) && IsDeliveryMove(m)
    ensures StopOk(DeliveryMove(x, m))
  {
    hide DeliveryMove, Can;
    DeliverySame(inline, free, x, m);
  }

  lemma FinishStopOk(inline: bool, free: bool, x: Slot, m: Move)
    requires CoreOk(x) && StopOk(x) && Can(inline, free, x, m)
    requires !IsBodyMove(m) && !IsHandleMove(m) && !IsStopMove(m) && !IsDeliveryMove(m)
    ensures StopOk(FinishMove(x, m))
  {
    hide ResultOk, OrphanOk, DeliveryOk;
  }

  lemma StopOkKept(inline: bool, free: bool, x: Slot, m: Move)
    requires CoreOk(x) && StopOk(x) && Can(inline, free, x, m)
    ensures StopOk(After(inline, free, x, m))
  {
    hide CoreOk, StopOk, Can, BodyMove, HandleMove, StopMove, DeliveryMove, FinishMove;
    if IsBodyMove(m) { BodyStopOk(inline, free, x, m); }
    else if IsHandleMove(m) { HandleStopOk(inline, free, x, m); }
    else if IsStopMove(m) { PartyStopOk(inline, free, x, m); }
    else if IsDeliveryMove(m) { DeliveryStopOk(inline, free, x, m); }
    else { FinishStopOk(inline, free, x, m); }
  }

  lemma MoveKeeps(inline: bool, free: bool, x: Slot, m: Move)
    requires SlotOk(x) && Can(inline, free, x, m) && (free ==> !HoldsLedger(x))
    ensures SlotOk(After(inline, free, x, m))
  {
    hide CoreOk, StopOk, HoldsLedger, Can, BodyMove, HandleMove, StopMove, DeliveryMove, FinishMove;
    StopOkKept(inline, free, x, m);
    if IsBodyMove(m) { BodyMoveKeeps(inline, free, x, m); }
    else if IsHandleMove(m) { HandleMoveKeeps(inline, free, x, m); }
    else if IsStopMove(m) { StopMoveKeeps(inline, free, x, m); }
    else if IsDeliveryMove(m) { DeliveryMoveKeeps(inline, free, x, m); }
    else { FinishMoveKeeps(inline, free, x, m); }
  }

  /** The slot's shares of the run's count and of the ledger change as `m` changes those. */
  predicate SharesFollow(x: Slot, y: Slot, m: Move) {
    && InFlight(y) == InFlight(x) + InFlightChange(m)
    && OrphanCount(y) - Holding(y) == OrphanCount(x) - Holding(x) + OrphanChange(m)
  }

  lemma StartShares(inline: bool, free: bool, x: Slot, m: Move)
    requires SlotOk(x) && Can(inline, free, x, m) && (m.Check? || m.Reset? || m.Arm? || m.Count?)
    ensures SharesFollow(x, BodyMove(x, m), m)
  {
    hide StopOk, ResultOk, DeliveryOk;
  }

  lemma RunShares(inline: bool, free: bool, x: Slot, m: Move)
    requires SlotOk(x) && Can(inline, free, x, m)
    requires m.Register? || m.CallbackReturns? || m.Begin? || m.BodyReturns? || m.Look? || m.Leave?
    ensures SharesFollow(x, BodyMove(x, m), m)
  {
    hide StopOk, ResultOk, DeliveryOk;
  }

  lemma ArriveShares(inline: bool, free: bool, x: Slot, m: Move)
    requires SlotOk(x) && m.Arrive? && Can(inline, free, x, m)
    ensures SharesFollow(x, BodyMove(x, m), m)
  {
    hide StopOk, ResultOk, DeliveryOk;
  }

  lemma BodyShares(inline: bool, free: bool, x: Slot, m: Move)
    requires SlotOk(x) && IsBodyMove(m) && Can(inline, free, x, m)
    ensures SharesFollow(x, BodyMove(x, m), m)
  {
    hide SlotOk, BodyMove, SharesFollow;
    if m.Check? || m.Reset? || m.Arm? || m.Count? { StartShares(inline, free, x, m); }
    else if m.Arrive? { ArriveShares(inline, free, x, m); }
    else { RunShares(inline, free, x, m); }
  }

  lemma HandleShares(inline: bool, free: bool, x: Slot, m: Move)
    requires SlotOk(x) && IsHandleMove(m) && Can(inline, free, x, m)
    ensures SharesFollow(x, HandleMove(x, m), m)
  {
    hide StopOk, ResultOk, DeliveryOk, PartiesOk;
  }

  lemma StopShares(inline: bool, free: bool, x: Slot, m: Move)
    requires SlotOk(x) && IsStopMove(m) && Can(inline, free, x, m)
    ensures SharesFollow(x, StopMove(x, m), m)
  {
    hide SlotOk;
  }

  lemma ListShares(inline: bool, free: bool, x: Slot, m: Move)
    requires SlotOk(x) && m.List? && Can(inline, free, x, m)
    ensures SharesFollow(x, DeliveryMove(x, m), m)
  {
    hide StopOk, ResultOk;
  }

  lemma DispatchShares(inline: bool, free: bool, x: Slot, m: Move)
    requires SlotOk(x) && m.Dispatch? && Can(inline, free, x, m)
    ensures SharesFollow(x, DeliveryMove(x, m), m)
  {
    hide StopOk, ResultOk;
  }

  lemma CountingShares(inline: bool, free: bool, x: Slot, m: Move)
    requires SlotOk(x) && (m.CountDelivery? || m.FinishReturns? || m.Uncount?) && Can(inline, free, x, m)
    ensures SharesFollow(x, DeliveryMove(x, m), m)
  {
    hide StopOk, ResultOk;
  }

  lemma DeliveryShares(inline: bool, free: bool, x: Slot, m: Move)
    requires SlotOk(x) && IsDeliveryMove(m) && Can(inline, free, x, m)
    ensures SharesFollow(x, DeliveryMove(x, m), m)
  {
    hide SlotOk, DeliveryMove, SharesFollow;
    if m.List? { ListShares(inline, free, x, m); }
    else if m.Dispatch? { DispatchShares(inline, free, x, m); }
    else { CountingShares(inline, free, x, m); }
  }

  lemma FinishShares(inline: bool, free: bool, x: Slot, m: Move)
    requires SlotOk(x) && Can(inline, free, x, m)
    requires !IsBodyMove(m) && !IsHandleMove(m) && !IsStopMove(m) && !IsDeliveryMove(m)
    ensures SharesFollow(x, FinishMove(x, m), m)
  {
    hide StopOk, ResultOk;
  }

  lemma SharesMove(inline: bool, free: bool, x: Slot, m: Move)
    requires SlotOk(x) && Can(inline, free, x, m)
    ensures SharesFollow(x, After(inline, free, x, m), m)
  {
    hide SlotOk, Can, BodyMove, HandleMove, StopMove, DeliveryMove, FinishMove, SharesFollow;
    if IsBodyMove(m) { BodyShares(inline, free, x, m); }
    else if IsHandleMove(m) { HandleShares(inline, free, x, m); }
    else if IsStopMove(m) { StopShares(inline, free, x, m); }
    else if IsDeliveryMove(m) { DeliveryShares(inline, free, x, m); }
    else { FinishShares(inline, free, x, m); }
  }
}
