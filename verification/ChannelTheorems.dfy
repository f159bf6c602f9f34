/** What holds in every run of the channel, whatever the threads, the worker and the transport do. */
module ChannelTheorems {
  import opened Channel

  ghost predicate Steps(u: Setup, s: State, t: State) {
    exists a :: Enabled(s, a) && t == Step(u, s, a)
  }

  /** Consecutive states of the channel, from its construction on. */
  ghost predicate IsRun(u: Setup, run: seq<State>) {
    |run| > 0 && run[0] == Init() && forall i :: 0 <= i < |run| - 1 ==> Steps(u, run[i], run[i + 1])
  }

  lemma {:induction false} RunInv(u: Setup, run: seq<State>, i: nat)
    requires IsRun(u, run) && i < |run|
    ensures Inv(u, run[i])
  {
    hide Inv, Enabled, Step;
    if i == 0 {
      InitHolds(u);
    } else {
      RunInv(u, run, i - 1);
      assert Steps(u, run[i - 1], run[i]);
      var a :| Enabled(run[i - 1], a) && run[i] == Step(u, run[i - 1], a);
      StepKeeps(u, run[i - 1], a);
    }
  }

  /** Every call of the channel has returned. */
  predicate Quiet(s: State) {
    forall c :: 0 <= c < |s.calls| ==> s.calls[c].Finished?
  }

  /** While connected with room for a request at all, a queued request has something to wait for: a pending
      request or a hand-over; once the channel's calls have returned, all slots are taken. */
  lemma QueuedIsNotStranded(u: Setup, run: seq<State>, i: nat)
    requires IsRun(u, run) && i < |run| && run[i].phase == Connected && run[i].queued != []
    ensures |run[i].pending| + HandOvers(run[i].calls) >= run[i].limit
    ensures run[i].limit >= 1 ==> run[i].pending != map[] || HandOvers(run[i].calls) > 0
    ensures Quiet(run[i]) ==> |run[i].pending| == run[i].limit
  {
    RunInv(u, run, i);
    if Quiet(run[i]) { QuietSums(run[i].calls); }
  }

  lemma {:induction false} QuietSums(calls: seq<Call>)
    requires forall c :: 0 <= c < |calls| ==> calls[c].Finished?
    ensures HandOvers(calls) == 0 && AllInHand(calls) == multiset{}
  {
    if calls != [] { QuietSums(calls[..|calls| - 1]); }
  }

  lemma {:induction false} SubmittedAt(n: nat, h: nat)
    ensures Submitted(n)[h] == if h < n then 1 else 0
  {
    if n > 0 { SubmittedAt(n - 1, h); }
  }

  /** Every completion handed over is in exactly one place, and never completed twice. */
  lemma InOnePlace(u: Setup, run: seq<State>, i: nat, h: nat)
    requires IsRun(u, run) && i < |run|
    ensures PendingHandles(run[i].pending, run[i].nextId)[h] + multiset(run[i].queued)[h]
          + AllInHand(run[i].calls)[h] + run[i].completed[h] == if h < run[i].submitted then 1 else 0
  {
    var s := run[i];
    RunInv(u, run, i);
    SubmittedAt(s.submitted, h);
    assert Submitted(s.submitted)[h] == (PendingHandles(s.pending, s.nextId) + multiset(s.queued)
      + AllInHand(s.calls) + s.completed)[h];
  }

  /** Once the transport has closed and the channel's calls have returned, every completion it was given has
      been completed, exactly once. */
  lemma CompletedExactlyOnce(u: Setup, run: seq<State>, i: nat)
    requires IsRun(u, run) && i < |run| && run[i].onClosedSeen && Quiet(run[i])
    ensures forall h: nat :: run[i].completed[h] == if h < run[i].submitted then 1 else 0
  {
    var s := run[i];
    RunInv(u, run, i);
    QuietSums(s.calls);
    PendingNone(s.nextId);
    assert multiset(s.queued) == multiset{};
    assert Submitted(s.submitted) == s.completed;
    forall h: nat ensures s.completed[h] == if h < s.submitted then 1 else 0 {
      SubmittedAt(s.submitted, h);
    }
  }

  /** Request ids are never reused, pending ones were issued, and neither table exceeds its limit. */
  lemma WithinLimits(u: Setup, run: seq<State>, i: nat)
    requires IsRun(u, run) && i < |run|
    ensures forall j, k :: 0 <= j < k < |run[i].issued| ==> run[i].issued[j] != run[i].issued[k]
    ensures forall id :: id in run[i].pending ==> id in run[i].issued
    ensures |run[i].pending| <= run[i].limit && |run[i].queued| <= u.capacity
  {
    RunInv(u, run, i);
    forall id | id in run[i].pending ensures id in run[i].issued {
      assert run[i].issued[id - 1] == id;
    }
  }

  // ---- The channel's calls return ----

  /** An upper bound on the steps a call still takes, counting those of the requests it hands over. */
  function Weight(call: Call): nat {
    match call
    case Sending(_, _) => 7
    case Transferring(_) => 2
    case Registering(_) => 1
    case Failing(_) => 1
    case Replying(_) => 1
    case Completing(_, next) => if next.Some? then 9 else 2
    case Launching(next) => if next.Some? then 8 else 1
    case Taking => 3
    case Closing(hs) => 1 + |hs|
    case Finished => 0
  }

  function Weights(calls: seq<Call>): nat {
    if calls == [] then 0 else Weights(calls[..|calls| - 1]) + Weight(calls[|calls| - 1])
  }

  function Measure(s: State): nat {
    Weights(s.calls) + 3 * |s.pending| + 6 * |s.queued|
  }

  lemma {:induction false} WeightsUpdate(calls: seq<Call>, c: nat, call: Call)
    requires c < |calls|
    ensures Weights(calls[c := call]) + Weight(calls[c]) == Weights(calls) + Weight(call)
  {
    hide Weight;
    var n, after := |calls| - 1, calls[c := call];
    if c == n {
      assert after[..n] == calls[..n];
    } else {
      assert after[..n] == calls[..n][c := call] && after[n] == calls[n];
      WeightsUpdate(calls[..n], c, call);
    }
  }

  /** A step of one call lowers the measure when it lowers that call's share. */
  lemma ShareDecreases(s: State, t: State, c: nat)
    requires c < |s.calls| == |t.calls| && t.calls == s.calls[c := t.calls[c]]
    requires Weight(t.calls[c]) + 3 * |t.pending| + 6 * |t.queued| < Weight(s.calls[c]) + 3 * |s.pending| + 6 * |s.queued|
    ensures Measure(t) < Measure(s)
  {
    hide Weight, Weights;
    WeightsUpdate(s.calls, c, t.calls[c]);
  }

  lemma AdmitDecreases(u: Setup, s: State, c: nat)
    requires Inv(u, s) && c < |s.calls| && s.calls[c].Sending?
    ensures Measure(Admit(u, s, c)) < Measure(s)
  {
    hide Inv, Shaped, Measure;
    var t := Admit(u, s, c);
    assert s.nextId !in s.pending by { InvShaped(u, s); ShapedFacts(u, s); }
    assert t.nextId != s.nextId ==> |t.pending| == |s.pending| + 1;
    ShareDecreases(s, t, c);
  }

  lemma InvShaped(u: Setup, s: State)
    requires Inv(u, s)
    ensures Shaped(u, s)
  {
    hide Shaped;
  }

  lemma RemoveDecreases(s: State, c: nat, id: nat)
    requires c < |s.calls| && (s.calls[c] == Failing(id) || s.calls[c] == Replying(id))
    ensures Measure(Remove(s, c, id)) < Measure(s)
  {
    hide Measure;
    if id in s.pending { TakeOutDecreases(s, c, id); } else { SetCallDecreases(s, c, Finished); }
  }

  lemma TakeOutDecreases(s: State, c: nat, id: nat)
    requires c < |s.calls| && (s.calls[c] == Failing(id) || s.calls[c] == Replying(id)) && id in s.pending
    ensures Measure(Remove(s, c, id)) < Measure(s)
  {
    hide Measure;
    var t := Remove(s, c, id);
    assert |t.pending| == |s.pending| - 1;
    ShareDecreases(s, t, c);
  }

  lemma FailNextDecreases(s: State, c: nat, pick: nat)
    requires c < |s.calls| && s.calls[c].Closing? && (s.calls[c].hs != multiset{} ==> pick in s.calls[c].hs)
    ensures Measure(FailNext(s, c, pick)) < Measure(s)
  {
    hide Measure;
    ShareDecreases(s, FailNext(s, c, pick), c);
  }

  lemma SetCallDecreases(s: State, c: nat, call: Call)
    requires c < |s.calls| && Weight(call) < Weight(s.calls[c])
    ensures Measure(SetCall(s, c, call)) < Measure(s)
  {
    hide Measure, Weight;
    ShareDecreases(s, SetCall(s, c, call), c);
  }

  lemma AdvanceDecreases(u: Setup, s: State, c: nat, choice: Choice)
    requires Inv(u, s) && Enabled(s, Advance(c, choice))
    ensures Measure(AdvanceCall(u, s, c, choice)) < Measure(s)
  {
    hide Inv, Measure, SetCall, Admit, Remove, FailNext;
    match s.calls[c]
    case Sending(_, _) => AdmitDecreases(u, s, c);
    case Transferring(id) => SetCallDecreases(s, c, if choice.sent then Registering(id) else Failing(id));
    case Registering(_) => SetCallDecreases(s, c, Finished);
    case Failing(id) => RemoveDecreases(s, c, id);
    case Replying(id) => RemoveDecreases(s, c, id);
    case Completing(_, _) => CompleteDecreases(s, c);
    case Launching(_) => LaunchDecreases(s, c, choice.stopped);
    case Taking => TakeDecreases(s, c);
    case Closing(_) => FailNextDecreases(s, c, choice.pick);
  }

  lemma CompleteDecreases(s: State, c: nat)
    requires c < |s.calls| && s.calls[c].Completing?
    ensures Measure(Complete(s, c)) < Measure(s)
  {
    hide Measure;
    ShareDecreases(s, Complete(s, c), c);
  }

  lemma LaunchDecreases(s: State, c: nat, stopped: bool)
    requires c < |s.calls| && s.calls[c].Launching?
    ensures Measure(Launch(s, c, stopped)) < Measure(s)
  {
    hide Measure;
    ShareDecreases(s, Launch(s, c, stopped), c);
  }

  lemma TakeDecreases(s: State, c: nat)
    requires c < |s.calls| && s.calls[c].Taking?
    ensures Measure(Take(s, c)) < Measure(s)
  {
    hide Measure;
    ShareDecreases(s, Take(s, c), c);
  }

  ghost predicate CanTake(u: Setup, s: State, steps: seq<(nat, Choice)>)
    decreases |steps|
  {
    steps == []
    || (Enabled(s, Advance(steps[0].0, steps[0].1))
        && CanTake(u, AdvanceCall(u, s, steps[0].0, steps[0].1), steps[1..]))
  }

  /** Left to themselves the channel's calls return: no sequence of their steps is longer than the measure of
      the state it starts in, so launch() never loops forever. */
  lemma {:induction false} CallsReturn(u: Setup, s: State, steps: seq<(nat, Choice)>)
    requires Inv(u, s) && CanTake(u, s, steps)
    ensures |steps| <= Measure(s)
    decreases |steps|
  {
    hide Inv, Measure, AdvanceCall, Step;
    if steps != [] {
      AdvanceDecreases(u, s, steps[0].0, steps[0].1);
      AdvanceKeeps(u, s, steps[0].0, steps[0].1);
      CallsReturn(u, AdvanceCall(u, s, steps[0].0, steps[0].1), steps[1..]);
    }
  }
}
