/** What holds of deferred jobs in every sequence of runs, whatever order the three parties, the executor and
    the runs take their steps in. */
module DeferredTheorems {
  import opened Jobs
  import opened Deferred
  import opened DeferredRuns
  import Kahn

  ghost predicate Steps(s: State, t: State) {
    exists a :: Enabled(s, a) && t == Step(s, a)
  }

  /** Consecutive states of a pipeline of `n` deferred jobs, over any number of runs. */
  ghost predicate IsHistory(n: nat, states: seq<State>) {
    |states| > 0 && states[0] == Init(n) && forall k :: 0 <= k < |states| - 1 ==> Steps(states[k], states[k + 1])
  }

  lemma {:induction false} HistoryInv(n: nat, states: seq<State>, k: nat)
    requires IsHistory(n, states) && k < |states|
    ensures Inv(states[k])
  {
    hide Inv, Enabled, Step;
    if k == 0 {
      InitHolds(n);
    } else {
      HistoryInv(n, states, k - 1);
      assert Steps(states[k - 1], states[k]);
      var a :| Enabled(states[k - 1], a) && states[k] == Step(states[k - 1], a);
      StepKeeps(states[k - 1], a);
    }
  }

  lemma SlotAt(n: nat, states: seq<State>, k: nat, i: nat)
    requires IsHistory(n, states) && k < |states| && i < |states[k].slots|
    ensures SlotOk(states[k].slots[i])
  {
    hide SlotOk, CountsOk, LedgerOk, AwaitedOk, PhaseOk, IsHistory;
    HistoryInv(n, states, k);
  }

  // ---- The outcome ----

  /** `y` decides nothing that `x` has decided differently. */
  predicate Decides(x: Slot, y: Slot) {
    y.outcome == x.outcome && y.claim == x.claim && (WinnerParty(x) == 0 ==> y.result == x.result)
  }

  lemma DecidedByBody(inline: bool, free: bool, x: Slot, m: Move)
    requires IsBodyMove(m) && Can(inline, free, x, m) && Live(x) && !x.outcome.Undecided?
    ensures Decides(x, BodyMove(x, m))
  {
  }

  lemma DecidedByParty(inline: bool, free: bool, x: Slot, m: Move)
    requires SlotOk(x) && (IsHandleMove(m) || IsStopMove(m)) && Can(inline, free, x, m)
    requires Live(x) && !x.outcome.Undecided?
    ensures Decides(x, if IsHandleMove(m) then HandleMove(x, m) else StopMove(x, m))
  {
    hide StopOk, PartiesOk, EarlyOk, DeliveryOk, ResultOk, OrphanOk;
  }

  lemma DecidedByDelivery(inline: bool, free: bool, x: Slot, m: Move)
    requires IsDeliveryMove(m) && Can(inline, free, x, m)
    ensures Decides(x, DeliveryMove(x, m))
  {
    hide DeliveryMove, Can;
    DeliverySame(inline, free, x, m);
  }

  lemma DecidedByFinish(inline: bool, free: bool, x: Slot, m: Move)
    requires Can(inline, free, x, m)
    requires !IsBodyMove(m) && !IsHandleMove(m) && !IsStopMove(m) && !IsDeliveryMove(m)
    ensures Decides(x, FinishMove(x, m))
  {
  }

  lemma DecidedMove(inline: bool, free: bool, x: Slot, m: Move)
    requires SlotOk(x) && Can(inline, free, x, m) && Live(x) && !x.outcome.Undecided?
    ensures Decides(x, After(inline, free, x, m))
  {
    hide SlotOk, Can, Live, Decides, BodyMove, HandleMove, StopMove, DeliveryMove, FinishMove;
    if IsBodyMove(m) { DecidedByBody(inline, free, x, m); }
    else if IsHandleMove(m) || IsStopMove(m) { DecidedByParty(inline, free, x, m); }
    else if IsDeliveryMove(m) { DecidedByDelivery(inline, free, x, m); }
    else { DecidedByFinish(inline, free, x, m); }
  }

  /** A started job's outcome is decided once: no step of any party changes a decided outcome or who decided
      it, nor the result once its winner has arrived. Only the reset at the start of another run does. */
  lemma DecidedOnce(n: nat, states: seq<State>, k: nat, a: Action, i: nat)
    requires IsHistory(n, states) && k < |states| && Enabled(states[k], a) && i < |states[k].slots|
    requires Started(states[k].slots[i]) && !states[k].slots[i].outcome.Undecided?
    ensures Decides(states[k].slots[i], Step(states[k], a).slots[i])
  {
    hide SlotOk, Can, After, Live, IsHistory;
    var s := states[k];
    SlotAt(n, states, k, i);
    StartedLive(s.slots[i]);
    if a.OnSlot? && a.i == i { DecidedMove(s.inline, s.ledger.None?, s.slots[i], a.m); }
  }

  lemma StartedLive(x: Slot)
    requires Started(x)
    ensures Live(x)
  {
  }

  /** The job is finished at most once, never before its body has returned and the winner has arrived, and with
      Timeout if the deadline had expired when the winner wrote, otherwise with the value the winner signalled, or
      Cancelled if the winner was a stop. */
  lemma FinishedOnce(n: nat, states: seq<State>, k: nat, i: nat)
    requires IsHistory(n, states) && k < |states| && i < |states[k].slots|
    ensures var x := states[k].slots[i];
      && x.finishes <= 1
      && (x.finishes == 1 ==> x.body.Left? && !x.outcome.Undecided? && WinnerParty(x) == 0)
      && (x.finishedWith.Some? ==> x.finishes == 1 && !x.claim.NoClaim?)
      && (x.finishedWith.Some? && x.late ==> x.finishedWith.value == Err(Timeout))
      && (x.finishedWith.Some? && !x.late && x.claim.BySignal? ==> x.finishedWith.value == x.claim.v)
      && (x.finishedWith.Some? && !x.late && x.claim.ByStop? ==> x.finishedWith.value == Err(Cancelled))
      && (x.finish.Finished? ==> x.finishedWith.Some?)
  {
    hide IsHistory;
    SlotAt(n, states, k, i);
  }

  // ---- The count of deferred work in flight ----

  /** The count is the number of jobs started and not finished plus the foreign dispatches in progress. */
  lemma InFlightCounts(n: nat, states: seq<State>, k: nat)
    requires IsHistory(n, states) && k < |states|
    ensures states[k].inFlight == |StartedUnfinished(states[k].slots)| + |Foreign(states[k].slots, false)|
                                + |Foreign(states[k].slots, true)|
  {
    hide SlotsOk, LedgerOk, AwaitedOk, PhaseOk, IsHistory;
    HistoryInv(n, states, k);
    InFlightsAreCards(states[k].slots);
  }

  function StartedUnfinished(slots: seq<Slot>): set<nat> {
    set i: nat | i < |slots| && Started(slots[i]) && !slots[i].finish.Finished?
  }

  /** The slots whose Completion (or stop callback) is inside a dispatch it has counted. */
  function Foreign(slots: seq<Slot>, byStop: bool): set<nat> {
    set i: nat | i < |slots| && Dispatches(slots[i], byStop)
  }

  predicate Dispatches(x: Slot, byStop: bool) {
    DeliveryOf(x, byStop).Some? && !DeliveryOf(x, byStop).value.Start?
  }

  lemma StartedGrows(slots: seq<Slot>, x: Slot)
    ensures |StartedUnfinished(slots + [x])|
         == |StartedUnfinished(slots)| + (if Started(x) && !x.finish.Finished? then 1 else 0)
  {
    hide Started;
    assert StartedUnfinished(slots + [x])
        == StartedUnfinished(slots) + (if Started(x) && !x.finish.Finished? then {|slots|} else {});
  }

  lemma ForeignGrows(slots: seq<Slot>, x: Slot, byStop: bool)
    ensures |Foreign(slots + [x], byStop)| == |Foreign(slots, byStop)| + (if Dispatches(x, byStop) then 1 else 0)
  {
    hide Dispatches;
    assert Foreign(slots + [x], byStop) == Foreign(slots, byStop) + (if Dispatches(x, byStop) then {|slots|} else {});
  }

  lemma {:induction false} InFlightsAreCards(slots: seq<Slot>)
    ensures InFlights(slots) == |StartedUnfinished(slots)| + |Foreign(slots, false)| + |Foreign(slots, true)|
  {
    hide Started, Foreign, StartedUnfinished;
    if slots == [] {
      NoneStarted();
    } else {
      var n := |slots| - 1;
      InFlightsAreCards(slots[..n]);
      assert slots == slots[..n] + [slots[n]];
      StartedGrows(slots[..n], slots[n]);
      ForeignGrows(slots[..n], slots[n], false);
      ForeignGrows(slots[..n], slots[n], true);
    }
  }

  lemma NoneStarted()
    ensures StartedUnfinished([]) == {} && Foreign([], false) == {} && Foreign([], true) == {}
  {
  }

  /** A run ends only when every job it started was finished, exactly once, and nothing is left to drain. */
  lemma EndedRunIsComplete(n: nat, states: seq<State>, k: nat, i: nat)
    requires IsHistory(n, states) && k < |states| && Enabled(states[k], EndRun) && i < |states[k].slots|
    ensures states[k].inFlight == 0 && states[k].awaited == [] && !states[k].slots[i].finish.Listed?
    ensures Started(states[k].slots[i]) ==>
      states[k].slots[i].finish.Finished? && states[k].slots[i].finishes == 1
    ensures DeliveryOf(states[k].slots[i], false).None? && DeliveryOf(states[k].slots[i], true).None?
  {
    hide IsHistory, SlotOk, InFlight, HoldsLedger;
    HistoryInv(n, states, k);
    var s := states[k];
    InFlightsZero(s.slots);
    assert SlotOk(s.slots[i]) && Parked(s.slots[i]);
    EndedSlot(s.slots[i]);
  }

  lemma EndedSlot(x: Slot)
    requires SlotOk(x) && Parked(x)
    ensures Started(x) ==> x.finish.Finished? && x.finishes == 1
    ensures DeliveryOf(x, false).None? && DeliveryOf(x, true).None?
  {
    ParkedFinished(x);
  }

  /** The list of jobs awaiting the run thread holds each job at most once, so it never outgrows its
      reservation. */
  lemma AwaitedFits(n: nat, states: seq<State>, k: nat)
    requires IsHistory(n, states) && k < |states|
    ensures forall j, l :: 0 <= j < l < |states[k].awaited| ==> states[k].awaited[j] != states[k].awaited[l]
    ensures |states[k].awaited| <= |states[k].slots|
  {
    hide IsHistory, SlotsOk, CountsOk, LedgerOk, PhaseOk;
    HistoryInv(n, states, k);
    Kahn.DistinctBounded(states[k].awaited, |states[k].slots|);
  }

  // ---- The orphan ledger and the reuse of slots ----

  function Orphans(slots: seq<Slot>): set<nat> {
    set i: nat | i < |slots| && Orphan(slots[i])
  }

  function Holders(slots: seq<Slot>): set<nat> {
    set i: nat | i < |slots| && HoldsLedger(slots[i])
  }

  lemma OrphansGrow(slots: seq<Slot>, x: Slot)
    ensures |Orphans(slots + [x])| == |Orphans(slots)| + OrphanCount(x)
  {
    hide Orphan;
    assert Orphans(slots + [x]) == Orphans(slots) + (if Orphan(x) then {|slots|} else {});
  }

  lemma HoldersGrow(slots: seq<Slot>, x: Slot)
    ensures |Holders(slots + [x])| == |Holders(slots)| + Holding(x)
  {
    hide HoldsLedger;
    assert Holders(slots + [x]) == Holders(slots) + (if HoldsLedger(x) then {|slots|} else {});
  }

  lemma NoOrphans()
    ensures Orphans([]) == {} && Holders([]) == {}
  {
  }

  lemma {:induction false} RecordedAreCards(slots: seq<Slot>)
    ensures AllRecorded(slots) == |Orphans(slots)| - |Holders(slots)|
  {
    hide OrphanCount, Holding, Orphans, Holders;
    if slots == [] {
      NoOrphans();
      assert Orphans(slots) == {} && Holders(slots) == {};
    } else {
      var n := |slots| - 1;
      RecordedAreCards(slots[..n]);
      assert slots == slots[..n] + [slots[n]];
      OrphansGrow(slots[..n], slots[n]);
      HoldersGrow(slots[..n], slots[n]);
    }
  }

  /** Whenever the ledger's lock is free, the orphan count is the number of slots marked orphaned whose release
      is not recorded; the count never goes below zero. */
  lemma LedgerCounts(n: nat, states: seq<State>, k: nat)
    requires IsHistory(n, states) && k < |states|
    ensures states[k].orphans >= 0
    ensures states[k].ledger.None? ==> states[k].orphans == |Orphans(states[k].slots)|
    ensures states[k].ledger.Some? ==> states[k].orphans == |Orphans(states[k].slots)| - 1
  {
    hide IsHistory, SlotOk, HoldsLedger, Orphan, AwaitedOk, PhaseOk, Recorded;
    HistoryInv(n, states, k);
    var s := states[k];
    forall i | 0 <= i < |s.slots| ensures Recorded(s.slots[i]) >= 0 { RecordedNonneg(s.slots[i]); }
    RecordedZero(s.slots);
    RecordedAreCards(s.slots);
    if s.ledger.None? {
      assert Holders(s.slots) == {};
    } else {
      assert HoldsLedger(s.slots[s.ledger.value]);
      assert Holders(s.slots) == {s.ledger.value};
    }
  }

  /** When a body resets its slot, no Completion of an earlier run can touch it any more, no stop callback or
      timer is registered on it, and nobody is finishing it. */
  lemma ResetIsSafe(n: nat, states: seq<State>, k: nat, i: nat)
    requires IsHistory(n, states) && k < |states| && Enabled(states[k], OnSlot(i, Reset))
    ensures var x := states[k].slots[i];
      && (x.handle.NoHandle? || x.handle.Gone?)
      && x.callback.Unregistered? && x.timer.Off? && x.finish.NotFinished?
  {
    hide IsHistory;
    SlotAt(n, states, k, i);
  }

  // ---- Progress ----

  /** Moves that need nothing from outside: no body returning, no Completion signalled, no stop requested, no
      deadline expiring, no job dispatched. */
  predicate Unaided(m: Move) {
    !m.BodyReturns? && !m.Signal? && !m.RequestStop? && !m.Expire? && !m.Check?
  }

  /** The job waits for its body to return, or for its Completion. */
  predicate WaitsOutside(x: Slot) {
    x.body.InBody? || (x.body.Left? && x.outcome.Undecided? && x.handle.Held?)
  }

  function HandleNext(inline: bool, h: Handle): Move {
    match h
    case Signalling(_) => Claim
    case Won(_) => Write
    case Written => SignalArrives
    case Lost => SetReleased
    case Releasing => RecordRelease
    case Delivering(d) => DeliveryNext(inline, d, false)
    case _ => EndFinish
  }

  function DeliveryNext(inline: bool, d: Delivery, byStop: bool): Move {
    match d
    case Start => if inline then List(byStop) else CountDelivery(byStop)
    case Dispatching => Dispatch(byStop, true)
    case OwnFinish => FinishReturns(byStop)
    case Uncounting => Uncount(byStop)
  }

  function CallbackNext(inline: bool, c: Callback): Move {
    match c
    case Firing => StopClaims
    case StopWon => StopWrites
    case StopWritten => StopArrives
    case StopDelivering(d) => DeliveryNext(inline, d, true)
    case _ => EndFinish
  }

  function FinishNext(f: Finish): Move {
    match f
    case Queued => Continue
    case Finishing(_, AtCallback) => DropCallback
    case Finishing(_, AtTimer) => DropTimer
    case Finishing(_, AtOrphan) => MarkOrphan
    case Finishing(_, AtCount) => CountOrphan
    case Finishing(_, AtFinish) => FinishJob
    case _ => EndFinish
  }

  function BodyNext(b: Body): Move {
    match b
    case Registering => Register
    case InCallback => CallbackReturns
    case Registered => Begin
    case Returned => Look
    case _ => Arrive
  }

  /** An unfinished job that waits for nothing outside has a party that can move, the ledger being free. */
  function NextMove(inline: bool, x: Slot): Move {
    if x.timer.Expiring? then ExpiryReturns
    else if !CallbackIdle(x) && x.callback != StopDelivering(OwnFinish) then CallbackNext(inline, x.callback)
    else if !x.body.Left? then BodyNext(x.body)
    else if x.finish.Queued? || x.finish.Finishing? then FinishNext(x.finish)
    else HandleNext(inline, x.handle)
  }

  lemma NextMoveCan(inline: bool, x: Slot)
    requires SlotOk(x) && Started(x) && !x.finish.Finished? && !x.finish.Listed? && !WaitsOutside(x)
    ensures Can(inline, true, x, NextMove(inline, x)) && Unaided(NextMove(inline, x))
    ensures !NextMove(inline, x).TakeListed?
  {
    hide StopOk, ResultOk, OrphanOk;
  }

  /** A party that can move, whoever holds the ledger or heads the awaited list. */
  lemma SomeMove(s: State, i: nat) returns (a: Action)
    requires Inv(s) && i < |s.slots|
    requires Started(s.slots[i]) && !s.slots[i].finish.Finished? && !WaitsOutside(s.slots[i])
    ensures Enabled(s, a) && a.OnSlot? && Unaided(a.m)
  {
    hide SlotOk, CountsOk, PhaseOk;
    if s.ledger.Some? {
      assert HoldsLedger(s.slots[s.ledger.value]);
      a := OnSlot(s.ledger.value, CountOrphan);
    } else if s.slots[i].finish.Listed? {
      assert i in s.awaited && s.slots[s.awaited[0]].finish.Listed?;
      a := OnSlot(s.awaited[0], TakeListed);
    } else {
      NextMoveCan(s.inline, s.slots[i]);
      a := OnSlot(i, NextMove(s.inline, s.slots[i]));
    }
  }

  /** No run gets stuck: while some job waits neither for its body nor for its Completion and is not finished,
      some move that needs nothing from outside can be taken. */
  lemma NeverStuck(n: nat, states: seq<State>, k: nat, i: nat) returns (a: Action)
    requires IsHistory(n, states) && k < |states| && i < |states[k].slots|
    requires Started(states[k].slots[i]) && !states[k].slots[i].finish.Finished? && !WaitsOutside(states[k].slots[i])
    ensures Enabled(states[k], a) && a.OnSlot? && Unaided(a.m)
  {
    hide IsHistory, Inv, Started, WaitsOutside, Enabled;
    HistoryInv(n, states, k);
    a := SomeMove(states[k], i);
  }

  /** How many unaided moves a slot can still make, at most. */
  function Rank(x: Slot): nat {
    BodyRank(x.body) + HandleRank(x.handle) + CallbackRank(x.callback) + FinishRank(x.finish) + x.leaving
    + (match x.timer case Off => 0 case Ticking => 1 case Expiring => 2)
  }

  function BodyRank(b: Body): nat {
    match b
    case Waiting => 60
    case Passed => 56
    case Prepared => 52
    case Counting => 48
    case Registering => 44
    case InCallback => 28
    case Registered => 24
    case InBody => 4
    case Returned => 3
    case Arriving => 2
    case Left => 0
    case Refused(_) => 0
  }

  function HandleRank(h: Handle): nat {
    match h
    case Held => 8
    case Signalling(_) => 8
    case Won(_) => 7
    case Written => 6
    case Delivering(d) => 1 + DeliveryRank(d)
    case Lost => 3
    case Releasing => 2
    case _ => 0
  }

  function DeliveryRank(d: Delivery): nat {
    match d
    case Start => 4
    case Dispatching => 3
    case OwnFinish => 2
    case Uncounting => 1
  }

  function CallbackRank(c: Callback): nat {
    match c
    case Armed => 10
    case Firing => 9
    case StopWon => 8
    case StopWritten => 7
    case StopDelivering(d) => 2 + DeliveryRank(d)
    case StopReturned => 1
    case Unregistered => 0
  }

  function FinishRank(f: Finish): nat {
    match f
    case NotFinished => 10
    case Listed => 9
    case Queued => 8
    case Finishing(_, AtCallback) => 7
    case Finishing(_, AtTimer) => 6
    case Finishing(_, AtOrphan) => 5
    case Finishing(_, AtCount) => 4
    case Finishing(_, AtFinish) => 3
    case Finishing(_, AtUncount) => 2
    case Finished => 0
  }

  lemma BodyRankFalls(inline: bool, free: bool, x: Slot, m: Move)
    requires SlotOk(x) && Can(inline, free, x, m) && Unaided(m) && IsBodyMove(m)
    ensures Rank(BodyMove(x, m)) < Rank(x)
  {
    hide SlotOk, BodyMove, Rank;
    if m.Arrive? { ArriveRankFalls(inline, free, x, m); }
    else if m.Reset? || m.Arm? || m.Count? || m.Register? { StartRankFalls(inline, free, x, m); }
    else { RunRankFalls(inline, free, x, m); }
  }

  lemma StartRankFalls(inline: bool, free: bool, x: Slot, m: Move)
    requires SlotOk(x) && Can(inline, free, x, m) && (m.Reset? || m.Arm? || m.Count? || m.Register?)
    ensures Rank(BodyMove(x, m)) < Rank(x)
  {
    hide StopOk, ResultOk, OrphanOk, DeliveryOk, OutcomeOk;
  }

  lemma RunRankFalls(inline: bool, free: bool, x: Slot, m: Move)
    requires Can(inline, free, x, m) && (m.CallbackReturns? || m.Begin? || m.Look? || m.Leave?)
    requires m.Begin? ==> SlotOk(x)
    ensures Rank(BodyMove(x, m)) < Rank(x)
  {
    hide StopOk, ResultOk, OrphanOk, DeliveryOk, OutcomeOk, PartiesOk, FinishRank, CallbackRank;
  }

  lemma ArriveRankFalls(inline: bool, free: bool, x: Slot, m: Move)
    requires SlotOk(x) && m.Arrive? && Can(inline, free, x, m)
    ensures Rank(BodyMove(x, m)) < Rank(x)
  {
    hide StopOk, ResultOk, OrphanOk, DeliveryOk, OutcomeOk, HandleRank, CallbackRank;
  }

  lemma HandleRankFalls(inline: bool, free: bool, x: Slot, m: Move)
    requires Can(inline, free, x, m) && Unaided(m) && IsHandleMove(m)
    ensures Rank(HandleMove(x, m)) < Rank(x)
  {
    hide BodyRank, CallbackRank, FinishRank;
  }

  lemma StopRankFalls(inline: bool, free: bool, x: Slot, m: Move)
    requires Can(inline, free, x, m) && Unaided(m) && IsStopMove(m)
    ensures Rank(StopMove(x, m)) < Rank(x)
  {
    hide BodyRank, HandleRank, FinishRank;
  }

  lemma DueNotFinished(x: Slot)
    requires SlotOk(x) && DeliveryDue(x)
    ensures x.finish.NotFinished?
  {
  }

  lemma SetDeliveryRank(x: Slot, byStop: bool, d: Delivery)
    requires DeliveryOf(x, byStop).Some?
    ensures Rank(SetDelivery(x, byStop, d)) - Rank(x) == DeliveryRank(d) - DeliveryRank(DeliveryOf(x, byStop).value)
    ensures SetDelivery(x, byStop, d).finish == x.finish
  {
    hide BodyRank, FinishRank, DeliveryRank;
  }

  lemma EndDeliveryRank(x: Slot, byStop: bool)
    requires DeliveryOf(x, byStop).Some?
    ensures Rank(EndDelivery(x, byStop)) < Rank(x) && EndDelivery(x, byStop).finish == x.finish
  {
    hide BodyRank, FinishRank, DeliveryRank;
  }

  lemma SetFinishRank(x: Slot, y: Slot)
    requires y == x.(finish := y.finish, finishes := y.finishes)
    ensures Rank(y) - Rank(x) == FinishRank(y.finish) - FinishRank(x.finish)
  {
    hide BodyRank, FinishRank, HandleRank, CallbackRank;
  }

  lemma DispatchRankFalls(inline: bool, free: bool, x: Slot, m: Move)
    requires SlotOk(x) && Can(inline, free, x, m) && m.Dispatch?
    ensures Rank(DeliveryMove(x, m)) < Rank(x)
  {
    hide SlotOk, Rank, SetDelivery, EndDelivery;
    var d := if m.accepted then Uncounting else OwnFinish;
    DueNotFinished(x);
    SetDeliveryRank(x, m.byStop, d);
    SetFinishRank(SetDelivery(x, m.byStop, d), DeliveryMove(x, m));
  }

  lemma DeliveryRankFalls(inline: bool, free: bool, x: Slot, m: Move)
    requires SlotOk(x) && Can(inline, free, x, m) && IsDeliveryMove(m)
    ensures Rank(DeliveryMove(x, m)) < Rank(x)
  {
    hide SlotOk, Rank, SetDelivery, EndDelivery;
    match m
    case List(byStop) =>
      DueNotFinished(x);
      EndDeliveryRank(x, byStop);
      SetFinishRank(EndDelivery(x, byStop), DeliveryMove(x, m));
    case CountDelivery(byStop) => SetDeliveryRank(x, byStop, Dispatching);
    case Dispatch(_, _) => DispatchRankFalls(inline, free, x, m);
    case FinishReturns(byStop) => SetDeliveryRank(x, byStop, Uncounting);
    case Uncount(byStop) => EndDeliveryRank(x, byStop);
    case _ =>
  }

  lemma FinishRankFalls(inline: bool, free: bool, x: Slot, m: Move)
    requires Can(inline, free, x, m)
    requires !IsBodyMove(m) && !IsHandleMove(m) && !IsStopMove(m) && !IsDeliveryMove(m)
    ensures Rank(FinishMove(x, m)) < Rank(x)
  {
    hide BodyRank, HandleRank;
  }

  lemma RankFalls(inline: bool, free: bool, x: Slot, m: Move)
    requires SlotOk(x) && Can(inline, free, x, m) && Unaided(m)
    ensures Rank(After(inline, free, x, m)) < Rank(x)
  {
    hide SlotOk, Can, Rank, BodyMove, HandleMove, StopMove, DeliveryMove, FinishMove;
    if IsBodyMove(m) { BodyRankFalls(inline, free, x, m); }
    else if IsHandleMove(m) { HandleRankFalls(inline, free, x, m); }
    else if IsStopMove(m) { StopRankFalls(inline, free, x, m); }
    else if IsDeliveryMove(m) { DeliveryRankFalls(inline, free, x, m); }
    else { FinishRankFalls(inline, free, x, m); }
  }

  function Ranks(slots: seq<Slot>): nat {
    if slots == [] then 0 else Ranks(slots[..|slots| - 1]) + Rank(slots[|slots| - 1])
  }

  lemma {:induction false} RanksUpdate(slots: seq<Slot>, i: nat, x: Slot)
    requires i < |slots|
    ensures Ranks(slots[i := x]) == Ranks(slots) + Rank(x) - Rank(slots[i])
  {
    hide Rank;
    var n, after := |slots| - 1, slots[i := x];
    if i == n {
      assert after[..n] == slots[..n];
    } else {
      assert after[..n] == slots[..n][i := x] && after[n] == slots[n];
      RanksUpdate(slots[..n], i, x);
    }
  }

  ghost predicate CanTake(s: State, actions: seq<Action>)
    decreases |actions|
  {
    actions == []
    || (Enabled(s, actions[0]) && actions[0].OnSlot? && Unaided(actions[0].m)
        && CanTake(Step(s, actions[0]), actions[1..]))
  }

  /** The state that the moves lead to. */
  function Settled(s: State, actions: seq<Action>): State
    requires CanTake(s, actions)
    decreases |actions|
  {
    if actions == [] then s else Settled(Step(s, actions[0]), actions[1..])
  }

  /** No unaided move is left. */
  ghost predicate AtRest(s: State) {
    forall a: Action :: a.OnSlot? && Unaided(a.m) ==> !Enabled(s, a)
  }

  lemma {:induction false} SettlingBounded(s: State, actions: seq<Action>)
    requires Inv(s) && CanTake(s, actions)
    ensures |actions| <= Ranks(s.slots) && Inv(Settled(s, actions))
    decreases |actions|
  {
    hide SlotOk, Can, After, CountsOk, LedgerOk, AwaitedOk, PhaseOk;
    if actions != [] {
      var i, m := actions[0].i, actions[0].m;
      RankFalls(s.inline, s.ledger.None?, s.slots[i], m);
      RanksUpdate(s.slots, i, After(s.inline, s.ledger.None?, s.slots[i], m));
      StepKeeps(s, actions[0]);
      SettlingBounded(Step(s, actions[0]), actions[1..]);
    }
  }

  /** A stop was requested or the deadline has expired, and nobody has decided the outcome. */
  predicate Missed(x: Slot) { x.outcome.Undecided? && (x.stopRequested || x.expired) }

  lemma MissedCan(inline: bool, free: bool, x: Slot) returns (m: Move)
    requires SlotOk(x) && WaitsOutside(x) && Missed(x)
    ensures Can(inline, free, x, m) && Unaided(m) && !m.TakeListed?
  {
    hide PartiesOk, DeliveryOk, ResultOk, OrphanOk;
    m := if x.timer.Expiring? then ExpiryReturns else if x.callback.Firing? then StopClaims else Fire;
  }

  /** A stop or an expiry that nobody has acted on yet leaves a move. */
  lemma StopMoves(s: State, i: nat) returns (a: Action)
    requires Inv(s) && i < |s.slots| && WaitsOutside(s.slots[i]) && Missed(s.slots[i])
    ensures Enabled(s, a) && a.OnSlot? && Unaided(a.m)
  {
    hide SlotOk, CountsOk, PhaseOk, LedgerOk, AwaitedOk, Can, WaitsOutside, Missed;
    var m := MissedCan(s.inline, s.ledger.None?, s.slots[i]);
    a := OnSlot(i, m);
  }

  /** Left to themselves the jobs settle: unaided moves come to an end, and once none is left every started job is
      finished or waits for its body or its Completion, with no stop requested and no deadline expired unless its
      outcome is decided. */
  lemma JobsSettle(s: State, actions: seq<Action>)
    requires Inv(s) && CanTake(s, actions)
    ensures |actions| <= Ranks(s.slots)
    ensures var t := Settled(s, actions);
      AtRest(t) ==> forall i {:trigger t.slots[i]} :: 0 <= i < |t.slots| && Started(t.slots[i]) ==>
        t.slots[i].finish.Finished? || (WaitsOutside(t.slots[i]) && !Missed(t.slots[i]))
  {
    hide Inv, Started, WaitsOutside, Missed, Enabled, CanTake, Settled;
    SettlingBounded(s, actions);
    var t := Settled(s, actions);
    forall i {:trigger t.slots[i]} | 0 <= i < |t.slots| && Started(t.slots[i]) && AtRest(t)
      ensures t.slots[i].finish.Finished? || (WaitsOutside(t.slots[i]) && !Missed(t.slots[i]))
    {
      if !t.slots[i].finish.Finished? && !WaitsOutside(t.slots[i]) {
        var a := SomeMove(t, i);
      } else if WaitsOutside(t.slots[i]) && Missed(t.slots[i]) {
        var a := StopMoves(t, i);
      }
    }
  }
}
