/** Stops, deadlines and signals over a whole run of a deferred job: which of them decides its result. */
module DeferredStops {
  import opened Jobs
  import opened Deferred
  import opened DeferredRuns
  import opened DeferredTheorems

  /** States `i` to `j` belong to one run. */
  ghost predicate WithinRun(states: seq<State>, i: nat, j: nat) {
    i <= j < |states| && forall k {:trigger states[k]} :: i <= k <= j ==> states[k].phase.Active?
  }

  // ---- What one move carries on ----

  /** The body is past the arming of the timer. */
  predicate Timed(x: Slot) { x.body.Counting? || Started(x) }

  predicate HasWritten(x: Slot) { !x.outcome.Undecided? && !x.handle.Won? && !x.callback.StopWon? }

  /** An expiry lasts, what the winner has written stays, and a winner who writes after the expiry is late. */
  predicate KeepsTime(x: Slot, y: Slot) {
    Timed(x) ==>
      && Timed(y) && (x.expired ==> y.expired)
      && (HasWritten(x) ==> HasWritten(y) && y.late == x.late && y.claim == x.claim && y.result == x.result)
      && (x.expired && !HasWritten(x) && HasWritten(y) ==> y.late)
  }

  /** The Completion was signalled with `v`. */
  predicate SignalledWith(x: Slot, v: Result) {
    && Started(x) && !x.handle.NoHandle? && !x.handle.Held?
    && (x.handle.Signalling? || x.handle.Won? ==> x.handle.v == v)
    && (x.claim.BySignal? ==> x.claim.v == v)
  }

  predicate BeforeRegistration(x: Slot) {
    x.body.Waiting? || x.body.Passed? || x.body.Prepared? || x.body.Counting? || x.body.Registering?
  }

  /** A stop that came before the body looked for it. */
  predicate Barred(x: Slot) { x.stopRequested && (x.body.Waiting? || x.body == Refused(Cancelled)) }

  /** A stop that came before the body registered for it. */
  predicate StoppedEarly(x: Slot) {
    && x.stopRequested
    && (BeforeRegistration(x) || x.body.Refused? || x.body.InCallback? || (Started(x) && x.claim.ByStop?))
  }

  /** The deadline's timer was armed in this run: it still runs, has expired, or the job is finishing. */
  predicate Clocked(x: Slot) { Timed(x) && (x.timer.Ticking? || x.expired || !x.finish.NotFinished?) }

  /** The job has no deadline. */
  predicate Unclocked(x: Slot) { Timed(x) && x.timer.Off? && !x.expired }

  predicate Carries(x: Slot, y: Slot, v: Result) {
    && KeepsTime(x, y)
    && (Clocked(x) ==> Clocked(y)) && (Unclocked(x) ==> Unclocked(y))
    && (x.body.Refused? ==> y.body == x.body)
    && (SignalledWith(x, v) ==> SignalledWith(y, v))
    && (Barred(x) ==> Barred(y))
    && (StoppedEarly(x) ==> StoppedEarly(y))
  }

  lemma StartCarries(inline: bool, free: bool, x: Slot, m: Move, v: Result)
    requires SlotOk(x) && Can(inline, free, x, m)
    requires m.Check? || m.Reset? || m.Arm? || m.Count? || m.Register?
    ensures Carries(x, BodyMove(x, m), v)
  {
    hide PartiesOk, DeliveryOk, ResultOk, OrphanOk, StopOk;
  }

  lemma ArriveCarries(inline: bool, free: bool, x: Slot, m: Move, v: Result)
    requires SlotOk(x) && m.Arrive? && Can(inline, free, x, m)
    ensures Carries(x, BodyMove(x, m), v)
  {
    hide PartiesOk, DeliveryOk, ResultOk, OrphanOk, StopOk;
  }

  lemma BodyCarries(inline: bool, free: bool, x: Slot, m: Move, v: Result)
    requires SlotOk(x) && IsBodyMove(m) && Can(inline, free, x, m)
    requires !m.Check? && !m.Reset? && !m.Arm? && !m.Count? && !m.Register? && !m.Arrive?
    ensures Carries(x, BodyMove(x, m), v)
  {
    hide PartiesOk, DeliveryOk, ResultOk, OrphanOk, StopOk;
  }

  lemma HandleCarries(inline: bool, free: bool, x: Slot, m: Move, v: Result)
    requires SlotOk(x) && IsHandleMove(m) && Can(inline, free, x, m)
    ensures Carries(x, HandleMove(x, m), v)
  {
    hide PartiesOk, DeliveryOk, ResultOk, OrphanOk, StopOk;
  }

  lemma StopCarries(inline: bool, free: bool, x: Slot, m: Move, v: Result)
    requires SlotOk(x) && IsStopMove(m) && Can(inline, free, x, m)
    requires !m.RequestStop? && !m.Expire? && !m.ExpiryReturns?
    ensures Carries(x, StopMove(x, m), v)
  {
    hide PartiesOk, DeliveryOk, ResultOk, OrphanOk, StopOk;
  }

  lemma ExpiryCarries(inline: bool, free: bool, x: Slot, m: Move, v: Result)
    requires SlotOk(x) && Can(inline, free, x, m) && (m.RequestStop? || m.Expire? || m.ExpiryReturns?)
    ensures Carries(x, StopMove(x, m), v)
  {
    hide PartiesOk, OutcomeOk, DeliveryOk, ResultOk, OrphanOk, StopOk;
  }

  /** What handing on and finishing leave as it was. */
  predicate Aside(x: Slot, y: Slot) {
    && y.body == x.body && y.outcome == x.outcome && y.claim == x.claim && y.late == x.late && y.result == x.result
    && y.expired == x.expired && y.stopRequested == x.stopRequested
    && (y.handle == x.handle || (x.handle.Delivering? && (y.handle.Delivering? || y.handle.Gone?)))
    && (x.callback.StopWon? <==> y.callback.StopWon?)
    && (!x.finish.NotFinished? ==> !y.finish.NotFinished?)
    && (y.timer == x.timer || (y.timer.Off? && !y.finish.NotFinished?))
  }

  lemma AsideCarries(x: Slot, y: Slot, v: Result)
    requires Aside(x, y)
    ensures Carries(x, y, v)
  {
  }

  lemma DeliveryAside(inline: bool, free: bool, x: Slot, m: Move)
    requires IsDeliveryMove(m) && Can(inline, free, x, m)
    ensures Aside(x, DeliveryMove(x, m))
  {
    hide DeliveryMove, Can;
    DeliverySame(inline, free, x, m);
    DeliveryGoesOn(inline, free, x, m);
  }

  lemma DeliveryGoesOn(inline: bool, free: bool, x: Slot, m: Move)
    requires IsDeliveryMove(m) && Can(inline, free, x, m)
    ensures !x.finish.NotFinished? ==> !DeliveryMove(x, m).finish.NotFinished?
  {
    hide DeliveryOf;
  }

  lemma FinishAside(inline: bool, free: bool, x: Slot, m: Move)
    requires Can(inline, free, x, m)
    requires !IsBodyMove(m) && !IsHandleMove(m) && !IsStopMove(m) && !IsDeliveryMove(m)
    ensures Aside(x, FinishMove(x, m))
  {
  }

  lemma MoveCarries(inline: bool, free: bool, x: Slot, m: Move, v: Result)
    requires SlotOk(x) && Can(inline, free, x, m)
    ensures Carries(x, After(inline, free, x, m), v)
  {
    hide SlotOk, Carries, Aside, BodyMove, HandleMove, StopMove, DeliveryMove, FinishMove;
    if m.Check? || m.Reset? || m.Arm? || m.Count? || m.Register? {
      StartCarries(inline, free, x, m, v);
    } else if m.Arrive? {
      ArriveCarries(inline, free, x, m, v);
    } else if IsBodyMove(m) {
      BodyCarries(inline, free, x, m, v);
    } else if IsHandleMove(m) {
      HandleCarries(inline, free, x, m, v);
    } else if m.RequestStop? || m.Expire? || m.ExpiryReturns? {
      ExpiryCarries(inline, free, x, m, v);
    } else if IsStopMove(m) {
      StopCarries(inline, free, x, m, v);
    } else if IsDeliveryMove(m) {
      DeliveryAside(inline, free, x, m);
      AsideCarries(x, After(inline, free, x, m), v);
    } else {
      FinishAside(inline, free, x, m);
      AsideCarries(x, After(inline, free, x, m), v);
    }
  }

  // ---- A whole run ----

  lemma CarriesOn(x: Slot, y: Slot, z: Slot, v: Result)
    requires Carries(x, y, v) && Carries(y, z, v)
    ensures Carries(x, z, v)
  {
    hide Timed, HasWritten, SignalledWith, Barred, StoppedEarly, Clocked, Unclocked;
  }

  lemma SameCarries(x: Slot, v: Result)
    ensures Carries(x, x, v)
  {
  }

  lemma StepCarries(n: nat, states: seq<State>, k: nat, i: nat, v: Result)
    requires IsHistory(n, states) && k + 1 < |states| && i < |states[k].slots|
    requires states[k].phase.Active? && states[k + 1].phase.Active?
    ensures i < |states[k + 1].slots| && Carries(states[k].slots[i], states[k + 1].slots[i], v)
  {
    hide SlotOk, Can, After, Carries;
    SlotAt(n, states, k, i);
    var s := states[k];
    assert Steps(s, states[k + 1]);
    var a :| Enabled(s, a) && states[k + 1] == Step(s, a);
    SameCarries(s.slots[i], v);
    if a.OnSlot? && a.i == i { MoveCarries(s.inline, s.ledger.None?, s.slots[i], a.m, v); }
  }

  lemma {:induction false} RunCarries(n: nat, states: seq<State>, i: nat, j: nat, k: nat, v: Result)
    requires IsHistory(n, states) && WithinRun(states, i, j) && k < |states[i].slots|
    ensures k < |states[j].slots| && Carries(states[i].slots[k], states[j].slots[k], v)
    decreases j
  {
    hide Carries, IsHistory;
    if i == j {
      SameCarries(states[i].slots[k], v);
    } else {
      RunCarries(n, states, i, j - 1, k, v);
      StepCarries(n, states, j - 1, k, v);
      CarriesOn(states[i].slots[k], states[j - 1].slots[k], states[j].slots[k], v);
    }
  }

  /** An expiry before the winner writes makes the job finish with Timeout, whoever wins and whatever it signals; a
      winner who wrote before any expiry keeps its result. */
  lemma ExpiryFirstOwnsTheResult(n: nat, states: seq<State>, i: nat, j: nat, k: nat)
    requires IsHistory(n, states) && WithinRun(states, i, j) && k < |states[i].slots| && Timed(states[i].slots[k])
    ensures k < |states[j].slots|
    ensures var x, y := states[i].slots[k], states[j].slots[k];
      y.finishedWith.Some? ==>
        && (x.expired && !HasWritten(x) ==> y.finishedWith.value == Err(Timeout))
        && (!x.expired && HasWritten(x) ==>
              y.finishedWith.value == if x.claim.BySignal? then x.claim.v else Err(Cancelled))
  {
    hide IsHistory, SlotOk, HasWritten;
    RunCarries(n, states, i, j, k, Ok);
    FinishedOnce(n, states, j, k);
    SlotAt(n, states, i, k);
    FinishedHasWritten(n, states, j, k);
    LateHasExpired(states[i].slots[k]);
  }

  lemma FinishedHasWritten(n: nat, states: seq<State>, j: nat, k: nat)
    requires IsHistory(n, states) && j < |states| && k < |states[j].slots|
    ensures states[j].slots[k].finishedWith.Some? ==> HasWritten(states[j].slots[k])
  {
    hide IsHistory, SlotOk;
    FinishedOnce(n, states, j, k);
  }

  lemma LateHasExpired(x: Slot)
    requires SlotOk(x) && Timed(x)
    ensures x.late ==> x.expired
  {
    hide CoreOk;
  }

  lemma SignalStarts(inline: bool, free: bool, x: Slot, v: Result)
    requires SlotOk(x) && Can(inline, free, x, Signal(v))
    ensures SignalledWith(After(inline, free, x, Signal(v)), v)
  {
    hide PartiesOk, DeliveryOk, ResultOk, OrphanOk, StopOk;
  }

  /** A Completion that wins reports the value it was signalled with in this run. */
  lemma TheSignalIsReported(n: nat, states: seq<State>, i: nat, j: nat, k: nat, v: Result)
    requires IsHistory(n, states) && WithinRun(states, i, j) && i < j && k < |states[i].slots|
    requires Enabled(states[i], OnSlot(k, Signal(v))) && states[i + 1] == Step(states[i], OnSlot(k, Signal(v)))
    ensures k < |states[j].slots| && (states[j].slots[k].claim.BySignal? ==> states[j].slots[k].claim.v == v)
    ensures states[j].slots[k].finishedWith.Some? && states[j].slots[k].claim.BySignal? && !states[j].slots[k].late ==>
      states[j].slots[k].finishedWith.value == v
  {
    hide SlotOk, Can, After, IsHistory, KeepsTime, Barred, StoppedEarly;
    SlotAt(n, states, i, k);
    SignalStarts(states[i].inline, states[i].ledger.None?, states[i].slots[k], v);
    RunCarries(n, states, i + 1, j, k, v);
    FinishedOnce(n, states, j, k);
  }

  /** A job for which a stop was requested before its body looked never starts in that run: it waits to be dispatched or
      was refused with Cancelled. A stop before the registration decides the outcome before the body is called. */
  lemma StopBeforeTheBody(n: nat, states: seq<State>, i: nat, j: nat, k: nat)
    requires IsHistory(n, states) && WithinRun(states, i, j) && k < |states[i].slots| && states[i].slots[k].stopRequested
    ensures k < |states[j].slots|
    ensures states[i].slots[k].body.Waiting? ==>
      states[j].slots[k].body.Waiting? || states[j].slots[k].body == Refused(Cancelled)
    ensures BeforeRegistration(states[i].slots[k]) && Started(states[j].slots[k]) ==>
      states[j].slots[k].body.Registering? || states[j].slots[k].body.InCallback? || states[j].slots[k].claim.ByStop?
  {
    hide IsHistory, WithinRun, SlotOk, KeepsTime, SignalledWith;
    RunCarries(n, states, i, j, k, Ok);
  }

  /** A job whose deadline could not be armed is refused and never starts in that run; an armed deadline can expire as long
      as the job does not finish; and a job without a deadline never times out. */
  lemma DeadlineKept(n: nat, states: seq<State>, i: nat, j: nat, k: nat, arming: Arming)
    requires IsHistory(n, states) && WithinRun(states, i, j) && i < j && k < |states[i].slots|
    requires Enabled(states[i], OnSlot(k, Arm(arming))) && states[i + 1] == Step(states[i], OnSlot(k, Arm(arming)))
    ensures k < |states[j].slots|
    ensures arming.NoService? ==> states[j].slots[k].body == Refused(DeadlineUnavailable)
    ensures arming.Accepted? && states[j].slots[k].finish.NotFinished? ==>
      states[j].slots[k].timer.Ticking? || states[j].slots[k].expired
    ensures arming.NoTimeout? ==>
      && !states[j].slots[k].expired && states[j].slots[k].timer.Off?
      && (states[j].slots[k].finishedWith == Some(Err(Timeout)) ==> states[j].slots[k].claim == BySignal(Err(Timeout)))
  {
    hide IsHistory, SlotOk, KeepsTime, SignalledWith, Barred, StoppedEarly, Can, After;
    SlotAt(n, states, i, k);
    ArmStarts(states[i].inline, states[i].ledger.None?, states[i].slots[k], arming);
    RunCarries(n, states, i + 1, j, k, Ok);
    FinishedOnce(n, states, j, k);
    SlotAt(n, states, j, k);
    if Timed(states[j].slots[k]) { LateHasExpired(states[j].slots[k]); }
  }

  lemma ArmStarts(inline: bool, free: bool, x: Slot, arming: Arming)
    requires SlotOk(x) && Can(inline, free, x, Arm(arming))
    ensures var y := After(inline, free, x, Arm(arming));
      && (arming.NoService? ==> y.body == Refused(DeadlineUnavailable))
      && (arming.Accepted? ==> Clocked(y))
      && (arming.NoTimeout? ==> Unclocked(y))
  {
    hide PartiesOk, OutcomeOk, DeliveryOk, ResultOk, OrphanOk;
  }

  // ---- Where a stop comes from ----

  predicate Requests(m: Move) { m.RequestStop? || m.ExpiryReturns? }

  lemma OnlyRequests(inline: bool, free: bool, x: Slot, m: Move)
    requires Can(inline, free, x, m) && !Requests(m)
    ensures After(inline, free, x, m).stopRequested == x.stopRequested
  {
    hide DeliveryMove, FinishMove;
    if IsBodyMove(m) || IsHandleMove(m) || IsStopMove(m) {
    } else if IsDeliveryMove(m) {
      DeliveryAside(inline, free, x, m);
    } else {
      FinishAside(inline, free, x, m);
    }
  }

  /** A step asks the job to stop: a stop request, or its deadline. */
  ghost predicate AsksAt(states: seq<State>, l: nat, k: nat) {
    && l + 1 < |states| && k < |states[l].slots|
    && exists m :: Requests(m) && Enabled(states[l], OnSlot(k, m)) && states[l + 1] == Step(states[l], OnSlot(k, m))
  }

  /** No stop outlives its run: a job that is asked to stop in a run that began at `i` was asked in that run. */
  lemma {:induction false} StopHasACause(n: nat, states: seq<State>, i: nat, inline: bool, j: nat, k: nat)
    requires IsHistory(n, states) && i < j && WithinRun(states, i + 1, j) && k < |states[j].slots|
    requires Enabled(states[i], StartRun(inline)) && states[i + 1] == Step(states[i], StartRun(inline))
    ensures states[j].slots[k].stopRequested ==> exists l: nat :: i < l < j && AsksAt(states, l, k)
    decreases j
  {
    hide SlotOk, Can, After, Requests;
    if j > i + 1 {
      var s := states[j - 1];
      assert Steps(s, states[j]);
      var a :| Enabled(s, a) && states[j] == Step(s, a);
      StopHasACause(n, states, i, inline, j - 1, k);
      if a.OnSlot? && a.i == k {
        if Requests(a.m) {
          assert AsksAt(states, j - 1, k);
        } else {
          OnlyRequests(s.inline, s.ledger.None?, s.slots[k], a.m);
        }
      }
    }
  }
}
