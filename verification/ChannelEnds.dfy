/** Why each completion of the channel ends as it does, and what send() does with a request, in every run. */
module ChannelEnds {
  import opened Jobs
  import opened Channel
  import opened ChannelTheorems

  /** The completion has been decided: completed, or about to be by the thread that decided it. */
  ghost predicate Ended(s: State, h: nat) {
    h in s.completed || exists c {:trigger s.calls[c]} :: 0 <= c < |s.calls| && EndsBy(s.calls[c], h)
  }

  predicate EndsBy(call: Call, h: nat) { call.Completing? && call.h == h }

  /** send() gives up on `h`: not connected, too big to travel, or no room in the window and the queue. */
  predicate Refuses(u: Setup, s: State, h: nat, error: PipelineError) {
    if s.phase != Connected then error == Unavailable
    else if !s.strategy && h in u.big then error == JobFailed
    else |s.pending| >= s.limit && |s.queued| >= u.capacity && error == Busy
  }

  /** The step of call `c` in state `s` decides `h`: send() refuses it, launch() finds its stop requested, its request id
      is taken out by a reply or because the request did not go out, or onClosed() took it. */
  predicate Decides(u: Setup, s: State, c: nat, stopped: bool, h: nat, end: End)
    requires c < |s.calls|
  {
    match s.calls[c]
    case Sending(g, _) => g == h && end.FailedWith? && Refuses(u, s, h, end.error)
    case Launching(next) => next == Some(h) && stopped && end == Succeeded
    case Failing(id) => id in s.pending && s.pending[id] == h && end == Answered(id)
    case Replying(id) => id in s.pending && s.pending[id] == h && end == Answered(id)
    case Closing(hs) => h in hs && end == FailedWith(Unavailable)
    case _ => false
  }

  // ---- One step ----

  /** What the step from `s` to `t` by call `c` leaves to say about `g` when it has ended. */
  ghost predicate EndExplained(u: Setup, s: State, t: State, c: nat, stopped: bool, g: nat)
    requires c < |s.calls|
  {
    (g in t.ends && Decides(u, s, c, stopped, g, t.ends[g]))
    || (Ended(s, g) && (g in s.ends ==> g in t.ends && t.ends[g] == s.ends[g]))
  }

  lemma EndedBefore(s: State, t: State, c: nat, g: nat)
    requires c < |s.calls| == |t.calls| && t.calls == s.calls[c := t.calls[c]] && Ended(t, g) && !EndsBy(t.calls[c], g)
    requires g in t.completed ==> g in s.completed || EndsBy(s.calls[c], g)
    ensures Ended(s, g)
  {
    if g in t.completed {
    } else {
      var d :| 0 <= d < |t.calls| && EndsBy(t.calls[d], g);
      assert t.calls[d] == s.calls[d];
    }
  }

  lemma NewEnd(u: Setup, s: State, t: State, c: nat, stopped: bool, h: nat, end: End, g: nat)
    requires c < |s.calls| == |t.calls| && t.calls == s.calls[c := t.calls[c]]
    requires t.ends == s.ends[h := end] && Decides(u, s, c, stopped, h, end)
    requires g != h ==> !EndsBy(t.calls[c], g) && (g in t.completed ==> g in s.completed)
    requires Ended(t, g)
    ensures EndExplained(u, s, t, c, stopped, g)
  {
    hide Ended, Decides, EndsBy;
    if g != h { EndedBefore(s, t, c, g); }
  }

  lemma NoEnd(u: Setup, s: State, t: State, c: nat, stopped: bool, g: nat)
    requires c < |s.calls| == |t.calls| && t.calls == s.calls[c := t.calls[c]] && t.ends == s.ends && Ended(t, g)
    requires !t.calls[c].Completing? && (g in t.completed ==> g in s.completed || EndsBy(s.calls[c], g))
    ensures EndExplained(u, s, t, c, stopped, g)
  {
    hide Ended, Decides;
    EndedBefore(s, t, c, g);
  }

  /** send() decides `h`, or nothing. */
  ghost predicate SendOutcome(u: Setup, s: State, t: State, c: nat, stopped: bool, h: nat)
    requires c < |s.calls|
  {
    && c < |t.calls| == |s.calls| && t.calls == s.calls[c := t.calls[c]] && t.completed == s.completed
    && (t.calls[c].Completing? ==> t.calls[c].h == h && h in t.ends && t.ends == s.ends[h := t.ends[h]]
                                   && Decides(u, s, c, stopped, h, t.ends[h]))
    && (!t.calls[c].Completing? ==> t.ends == s.ends)
  }

  lemma RefuseDecides(u: Setup, s: State, c: nat, stopped: bool, error: PipelineError)
    requires c < |s.calls| && s.calls[c].Sending? && Refuses(u, s, s.calls[c].h, error)
    ensures SendOutcome(u, s, Refuse(s, c, s.calls[c].h, error), c, stopped, s.calls[c].h)
  {
    hide Refuses;
  }

  lemma RoomDecides(u: Setup, s: State, c: nat, stopped: bool, h: nat)
    requires c < |s.calls|
    ensures SendOutcome(u, s, Enqueue(s, c, h), c, stopped, h) && SendOutcome(u, s, Issue(s, c, h), c, stopped, h)
  {
    hide Decides;
  }

  lemma AdmitDecides(u: Setup, s: State, c: nat, stopped: bool)
    requires c < |s.calls| && s.calls[c].Sending?
    ensures SendOutcome(u, s, Admit(u, s, c), c, stopped, s.calls[c].h)
  {
    hide SendOutcome, Refuse, Enqueue, Issue;
    var h := s.calls[c].h;
    if s.phase != Connected { RefuseDecides(u, s, c, stopped, Unavailable); }
    else if !s.strategy && h in u.big { RefuseDecides(u, s, c, stopped, JobFailed); }
    else if |s.pending| >= s.limit && |s.queued| >= u.capacity { RefuseDecides(u, s, c, stopped, Busy); }
    else { RoomDecides(u, s, c, stopped, h); }
  }

  lemma AdmitEnds(u: Setup, s: State, c: nat, stopped: bool, g: nat)
    requires c < |s.calls| && s.calls[c].Sending? && Ended(Admit(u, s, c), g)
    ensures EndExplained(u, s, Admit(u, s, c), c, stopped, g)
  {
    hide Ended, EndExplained, Admit, Decides;
    var t, h := Admit(u, s, c), s.calls[c].h;
    AdmitDecides(u, s, c, stopped);
    if t.calls[c].Completing? { NewEnd(u, s, t, c, stopped, h, t.ends[h], g); } else { NoEnd(u, s, t, c, stopped, g); }
  }

  lemma RemoveEnds(u: Setup, s: State, c: nat, id: nat, stopped: bool, g: nat)
    requires c < |s.calls| && (s.calls[c] == Failing(id) || s.calls[c] == Replying(id)) && Ended(Remove(s, c, id), g)
    ensures EndExplained(u, s, Remove(s, c, id), c, stopped, g)
  {
    hide Ended, EndExplained;
    var t := Remove(s, c, id);
    if id in s.pending { NewEnd(u, s, t, c, stopped, s.pending[id], Answered(id), g); }
    else { NoEnd(u, s, t, c, stopped, g); }
  }

  lemma LaunchEnds(u: Setup, s: State, c: nat, stopped: bool, g: nat)
    requires c < |s.calls| && s.calls[c].Launching? && Ended(Launch(s, c, stopped), g)
    ensures EndExplained(u, s, Launch(s, c, stopped), c, stopped, g)
  {
    hide Ended, EndExplained;
    var t, next := Launch(s, c, stopped), s.calls[c].next;
    if next.Some? && stopped { NewEnd(u, s, t, c, stopped, next.value, Succeeded, g); }
    else { NoEnd(u, s, t, c, stopped, g); }
  }

  lemma CloseEnds(u: Setup, s: State, c: nat, pick: nat, stopped: bool, g: nat)
    requires c < |s.calls| && s.calls[c].Closing? && (s.calls[c].hs != multiset{} ==> pick in s.calls[c].hs)
    requires Ended(FailNext(s, c, pick), g)
    ensures EndExplained(u, s, FailNext(s, c, pick), c, stopped, g)
  {
    hide Ended, EndExplained;
    var t := FailNext(s, c, pick);
    if s.calls[c].hs == multiset{} { NoEnd(u, s, t, c, stopped, g); }
    else { NewEnd(u, s, t, c, stopped, pick, FailedWith(Unavailable), g); }
  }

  lemma AdvanceEnds(u: Setup, s: State, c: nat, choice: Choice, g: nat)
    requires Enabled(s, Advance(c, choice)) && Ended(AdvanceCall(u, s, c, choice), g)
    ensures EndExplained(u, s, AdvanceCall(u, s, c, choice), c, choice.stopped, g)
  {
    hide Ended, EndExplained, Admit, Remove, Launch, FailNext;
    var t := AdvanceCall(u, s, c, choice);
    match s.calls[c]
    case Sending(_, _) => AdmitEnds(u, s, c, choice.stopped, g);
    case Failing(id) => RemoveEnds(u, s, c, id, choice.stopped, g);
    case Replying(id) => RemoveEnds(u, s, c, id, choice.stopped, g);
    case Launching(_) => LaunchEnds(u, s, c, choice.stopped, g);
    case Closing(_) => CloseEnds(u, s, c, choice.pick, choice.stopped, g);
    case _ => NoEnd(u, s, t, c, choice.stopped, g);
  }

  lemma OtherEnds(u: Setup, s: State, a: Action, g: nat)
    requires Enabled(s, a) && !a.Advance? && Ended(Step(u, s, a), g)
    ensures Ended(s, g) && Step(u, s, a).ends == s.ends
  {
    var t := Step(u, s, a);
    if g !in s.completed {
      var d :| 0 <= d < |t.calls| && EndsBy(t.calls[d], g);
      assert EndsBy(s.calls[d], g);
    }
  }

  // ---- Every run ----

  ghost predicate DecidedAt(u: Setup, run: seq<State>, i: nat, h: nat, end: End) {
    && i + 1 < |run|
    && exists c, choice :: Enabled(run[i], Advance(c, choice)) && run[i + 1] == Step(u, run[i], Advance(c, choice))
                           && Decides(u, run[i], c, choice.stopped, h, end)
  }

  /** A completion ends only because its stop was found requested in launch(), because send() refused it, because
      onClosed() took it, or with the answer to a request id it was issued; and it is told exactly that. */
  lemma {:induction false} EveryEndHasItsReason(u: Setup, run: seq<State>, j: nat, h: nat)
    requires IsRun(u, run) && j < |run| && Ended(run[j], h)
    ensures h in run[j].ends && exists i: nat :: i < j && DecidedAt(u, run, i, h, run[j].ends[h])
  {
    hide Enabled, Step, Ended, Decides;
    if j == 0 {
      NothingEndedAtFirst(h);
    } else {
      var s, t := run[j - 1], run[j];
      assert Steps(u, s, t);
      var a :| Enabled(s, a) && t == Step(u, s, a);
      if a.Advance? {
        StepEnds(u, s, a, h);
        if h in t.ends && Decides(u, s, a.c, a.choice.stopped, h, t.ends[h]) {
          assert DecidedAt(u, run, j - 1, h, t.ends[h]);
        } else {
          EveryEndHasItsReason(u, run, j - 1, h);
        }
      } else {
        OtherEnds(u, s, a, h);
        EveryEndHasItsReason(u, run, j - 1, h);
      }
    }
  }

  lemma StepEnds(u: Setup, s: State, a: Action, h: nat)
    requires Enabled(s, a) && a.Advance? && Ended(Step(u, s, a), h)
    ensures a.c < |s.calls| && EndExplained(u, s, Step(u, s, a), a.c, a.choice.stopped, h)
  {
    hide Ended, EndExplained, AdvanceCall;
    AdvanceEnds(u, s, a.c, a.choice, h);
  }

  lemma NothingEndedAtFirst(h: nat)
    ensures !Ended(Init(), h)
  {
  }

  // ---- What send() does with a request ----

  /** send() refuses, or queues the request at the back exactly when it is not refused and the window is full, or
      registers it under an id nobody was issued before. */
  lemma SendDecides(u: Setup, run: seq<State>, i: nat, c: nat, choice: Choice)
    requires IsRun(u, run) && i + 1 < |run| && Enabled(run[i], Advance(c, choice)) && run[i].calls[c].Sending?
    requires run[i + 1] == Step(u, run[i], Advance(c, choice))
    ensures var s, t, h := run[i], run[i + 1], run[i].calls[c].h;
      && (EndsBy(t.calls[c], h) <==> exists error :: Refuses(u, s, h, error))
      && (t.queued == s.queued + [h] <==> (forall error :: !Refuses(u, s, h, error)) && |s.pending| >= s.limit)
      && (t.calls[c].Transferring? <==> (forall error :: !Refuses(u, s, h, error)) && |s.pending| < s.limit)
      && (t.calls[c].Transferring? ==> t.calls[c].id !in s.issued && t.pending == s.pending[t.calls[c].id := h]
                                       && t.issued == s.issued + [t.calls[c].id])
  {
    hide IsRun;
    var s, h := run[i], run[i].calls[c].h;
    RunInv(u, run, i);
    RefusalCases(u, s, h);
  }

  lemma RefusalCases(u: Setup, s: State, h: nat)
    ensures (exists error :: Refuses(u, s, h, error)) <==>
      s.phase != Connected || (!s.strategy && h in u.big) || (|s.pending| >= s.limit && |s.queued| >= u.capacity)
  {
    if s.phase != Connected { assert Refuses(u, s, h, Unavailable); }
    else if !s.strategy && h in u.big { assert Refuses(u, s, h, JobFailed); }
    else if |s.pending| >= s.limit && |s.queued| >= u.capacity { assert Refuses(u, s, h, Busy); }
  }

  // ---- What becomes of a frame ----

  /** The request whose frame the call is sending, or has failed to send. */
  function OnItsWay(call: Call): Option<nat> {
    match call
    case Transferring(id) => Some(id)
    case Failing(id) => Some(id)
    case _ => None
  }

  /** No two calls send for one request id, and every id was issued. */
  ghost predicate IdsApart(s: State) {
    && (forall c {:trigger s.calls[c]} :: 0 <= c < |s.calls| && OnItsWay(s.calls[c]).Some? ==>
          OnItsWay(s.calls[c]).value < s.nextId)
    && (forall c, d :: 0 <= c < d < |s.calls| && OnItsWay(s.calls[c]).Some? ==>
          OnItsWay(s.calls[c]) != OnItsWay(s.calls[d]))
  }

  /** No call sends for `id` any more. */
  ghost predicate SentOff(s: State, id: nat) {
    id < s.nextId && forall c {:trigger s.calls[c]} :: 0 <= c < |s.calls| ==> OnItsWay(s.calls[c]) != Some(id)
  }

  /** Call `c` starts to send only under the next id, and otherwise goes on with the id it has or drops it. */
  predicate WayMoves(s: State, t: State, c: nat) {
    && c < |s.calls| == |t.calls| && t.calls == s.calls[c := t.calls[c]]
    && (if t.nextId == s.nextId then OnItsWay(t.calls[c]).None? || OnItsWay(t.calls[c]) == OnItsWay(s.calls[c])
        else t.nextId == s.nextId + 1 && OnItsWay(t.calls[c]) == Some(s.nextId))
  }

  lemma AdmitWay(u: Setup, s: State, c: nat)
    requires c < |s.calls| && s.calls[c].Sending?
    ensures WayMoves(s, Admit(u, s, c), c)
  {
  }

  lemma AdvanceWay(u: Setup, s: State, c: nat, choice: Choice)
    requires c < |s.calls| && !s.calls[c].Finished?
    ensures WayMoves(s, AdvanceCall(u, s, c, choice), c)
  {
    hide Admit, WayMoves;
    if s.calls[c].Sending? { AdmitWay(u, s, c); SendingAdmits(u, s, c, choice); } else { OtherWay(u, s, c, choice); }
  }

  lemma OtherWay(u: Setup, s: State, c: nat, choice: Choice)
    requires c < |s.calls| && !s.calls[c].Finished? && !s.calls[c].Sending?
    ensures WayMoves(s, AdvanceCall(u, s, c, choice), c)
  {
    hide Admit, WayMoves;
    var t := AdvanceCall(u, s, c, choice);
    match s.calls[c]
    case Transferring(id) => SetWay(s, t, c, if choice.sent then Registering(id) else Failing(id));
    case Registering(_) => SetWay(s, t, c, Finished);
    case Failing(id) => RemoveWay(s, c, id);
    case Replying(id) => RemoveWay(s, c, id);
    case Completing(_, next) => SetWay(s, t, c, Launching(next));
    case Launching(_) => LaunchWay(s, c, choice.stopped);
    case Taking => SetWay(s, t, c, Launching(Front(s.queued)));
    case Closing(hs) => SetWay(s, t, c, if hs == multiset{} then Finished else Closing(hs - multiset{choice.pick}));
  }

  lemma SetWay(s: State, t: State, c: nat, call: Call)
    requires c < |s.calls| && t.calls == s.calls[c := call] && t.nextId == s.nextId
    requires OnItsWay(call).None? || OnItsWay(call) == OnItsWay(s.calls[c])
    ensures WayMoves(s, t, c)
  {
  }

  lemma RemoveWay(s: State, c: nat, id: nat)
    requires c < |s.calls|
    ensures WayMoves(s, Remove(s, c, id), c)
  {
    hide WayMoves;
    SetWay(s, Remove(s, c, id), c, if id in s.pending then Completing(s.pending[id], Front(s.queued)) else Finished);
  }

  lemma LaunchWay(s: State, c: nat, stopped: bool)
    requires c < |s.calls| && s.calls[c].Launching?
    ensures WayMoves(s, Launch(s, c, stopped), c)
  {
    hide WayMoves;
    SetWay(s, Launch(s, c, stopped), c,
           if s.calls[c].next.None? then Finished else if stopped then Taking else Sending(s.calls[c].next.value, true));
  }

  lemma WayKeeps(s: State, t: State, c: nat, id: nat)
    requires WayMoves(s, t, c) && IdsApart(s)
    ensures IdsApart(t) && (SentOff(s, id) ==> SentOff(t, id))
  {
    hide OnItsWay;
    forall d {:trigger t.calls[d]} | 0 <= d < |t.calls| && OnItsWay(t.calls[d]).Some?
      ensures OnItsWay(t.calls[d]).value < t.nextId
    {
      assert d != c ==> t.calls[d] == s.calls[d];
    }
    forall d, e | 0 <= d < e < |t.calls| && OnItsWay(t.calls[d]).Some?
      ensures OnItsWay(t.calls[d]) != OnItsWay(t.calls[e])
    {
      assert d != c ==> t.calls[d] == s.calls[d];
      assert e != c ==> t.calls[e] == s.calls[e];
    }
    forall d {:trigger t.calls[d]} | 0 <= d < |t.calls| && SentOff(s, id) ensures OnItsWay(t.calls[d]) != Some(id) {
      assert d != c ==> t.calls[d] == s.calls[d];
    }
  }

  lemma StepWay(u: Setup, s: State, a: Action, id: nat)
    requires Enabled(s, a) && IdsApart(s)
    ensures IdsApart(Step(u, s, a)) && (SentOff(s, id) ==> SentOff(Step(u, s, a), id))
  {
    hide AdvanceCall, WayMoves, IdsApart, SentOff;
    var t := Step(u, s, a);
    if a.Advance? {
      AdvanceWay(u, s, a.c, a.choice);
      WayKeeps(s, t, a.c, id);
    } else {
      NewWay(u, s, a, id);
    }
  }

  lemma NewWay(u: Setup, s: State, a: Action, id: nat)
    requires Enabled(s, a) && !a.Advance? && IdsApart(s)
    ensures IdsApart(Step(u, s, a)) && (SentOff(s, id) ==> SentOff(Step(u, s, a), id))
  {
    hide PendingHandles;
    var t := Step(u, s, a);
    forall d {:trigger t.calls[d]} | 0 <= d < |t.calls|
      ensures OnItsWay(t.calls[d]).Some? ==> d < |s.calls| && t.calls[d] == s.calls[d]
    {
      assert d < |s.calls| ==> t.calls[d] == s.calls[d];
    }
  }

  lemma {:induction false} RunWay(u: Setup, run: seq<State>, j: nat)
    requires IsRun(u, run) && j < |run|
    ensures IdsApart(run[j])
  {
    hide Enabled, Step, IdsApart;
    if j == 0 {
      FirstWay();
    } else {
      RunWay(u, run, j - 1);
      assert Steps(u, run[j - 1], run[j]);
      var a :| Enabled(run[j - 1], a) && run[j] == Step(u, run[j - 1], a);
      StepWay(u, run[j - 1], a, 0);
    }
  }

  lemma FirstWay()
    ensures IdsApart(Init())
  {
  }

  lemma {:induction false} StaysOff(u: Setup, run: seq<State>, i: nat, j: nat, id: nat)
    requires IsRun(u, run) && i <= j < |run| && SentOff(run[i], id)
    ensures SentOff(run[j], id)
    decreases j
  {
    hide Enabled, Step, SentOff, IdsApart;
    if i < j {
      StaysOff(u, run, i, j - 1, id);
      RunWay(u, run, j - 1);
      assert Steps(u, run[j - 1], run[j]);
      var a :| Enabled(run[j - 1], a) && run[j] == Step(u, run[j - 1], a);
      StepWay(u, run[j - 1], a, id);
    }
  }

  lemma SentOffNow(u: Setup, s: State, c: nat, choice: Choice, id: nat)
    requires IdsApart(s) && c < |s.calls| && s.calls[c] == Transferring(id) && choice.sent
    ensures SentOff(AdvanceCall(u, s, c, choice), id)
  {
    var t := AdvanceCall(u, s, c, choice);
    forall d {:trigger t.calls[d]} | 0 <= d < |t.calls| ensures OnItsWay(t.calls[d]) != Some(id) {
      assert d != c ==> t.calls[d] == s.calls[d];
    }
  }

  /** The sender of a request fails it exactly when its frame did not go out: one that went out is taken from the pending
      table only by a reply, or when the connection closes. */
  lemma FailsOnlyUnsent(u: Setup, run: seq<State>, i: nat, j: nat, c: nat, choice: Choice, id: nat)
    requires IsRun(u, run) && i < j < |run| && Enabled(run[i], Advance(c, choice)) && run[i].calls[c] == Transferring(id)
    requires run[i + 1] == Step(u, run[i], Advance(c, choice))
    ensures
      if choice.sent then forall d {:trigger run[j].calls[d]} :: 0 <= d < |run[j].calls| ==> run[j].calls[d] != Failing(id)
      else run[i + 1].calls[c] == Failing(id)
  {
    hide IsRun, IdsApart;
    if choice.sent {
      RunWay(u, run, i);
      SentOffNow(u, run[i], c, choice, id);
      StaysOff(u, run, i + 1, j, id);
      forall d {:trigger run[j].calls[d]} | 0 <= d < |run[j].calls| ensures run[j].calls[d] != Failing(id) {
        assert OnItsWay(run[j].calls[d]) != Some(id);
      }
    }
  }

  // ---- The handshake ----

  lemma StaysNegotiated(u: Setup, s: State, a: Action)
    requires Enabled(s, a) && (s.phase == Connected || s.phase == Closed)
    ensures var t := Step(u, s, a);
      t.limit == s.limit && t.strategy == s.strategy && (t.phase == s.phase || t.phase == Closed)
  {
    hide AdvanceCall;
    if a.Advance? { CallNegotiates(u, s, a.c, a.choice); }
  }

  lemma CallNegotiates(u: Setup, s: State, c: nat, choice: Choice)
    requires c < |s.calls| && !s.calls[c].Finished?
    ensures var t := AdvanceCall(u, s, c, choice); t.limit == s.limit && t.strategy == s.strategy && t.phase == s.phase
  {
    hide Admit, OneCall;
    if s.calls[c].Sending? { AdmitNegotiates(u, s, c); SendingAdmits(u, s, c, choice); }
  }

  lemma AdmitNegotiates(u: Setup, s: State, c: nat)
    requires c < |s.calls| && s.calls[c].Sending?
    ensures var t := Admit(u, s, c); t.limit == s.limit && t.strategy == s.strategy && t.phase == s.phase
  {
    hide Admit, Placed;
    AdmitPlaces(u, s, c);
    PlacedSame(s, Admit(u, s, c), c, s.calls[c].h);
  }

  lemma PlacedSame(s: State, t: State, c: nat, h: nat)
    requires Placed(s, t, c, h)
    ensures t.limit == s.limit && t.strategy == s.strategy && t.phase == s.phase
  {
  }

  /** What the handshake settles holds for the rest of the channel's life: the limit and whether there is a strategy; and
      a connection that was closed never opens again. */
  lemma {:induction false} NegotiatedOnce(u: Setup, run: seq<State>, i: nat, j: nat, limit: nat, strategy: bool)
    requires IsRun(u, run) && i < j < |run| && Enabled(run[i], Acknowledge(limit, strategy))
    requires run[i + 1] == Step(u, run[i], Acknowledge(limit, strategy))
    ensures run[j].limit == limit && run[j].strategy == strategy && (run[j].phase == Connected || run[j].phase == Closed)
    ensures run[j - 1].phase == Closed ==> run[j].phase == Closed || j == i + 1
    decreases j
  {
    hide AdvanceCall;
    if j > i + 1 {
      NegotiatedOnce(u, run, i, j - 1, limit, strategy);
      assert Steps(u, run[j - 1], run[j]);
      var a :| Enabled(run[j - 1], a) && run[j] == Step(u, run[j - 1], a);
      StaysNegotiated(u, run[j - 1], a);
    }
  }

  // ---- A stopped request ----

  lemma CompletedGrows(u: Setup, s: State, a: Action, h: nat)
    requires Enabled(s, a) && h in s.completed
    ensures h in Step(u, s, a).completed
  {
    hide Admit, OneCall;
    if a.Advance? && s.calls[a.c].Sending? { AdmitCompletes(u, s, a.c); }
  }

  lemma AdmitCompletes(u: Setup, s: State, c: nat)
    requires c < |s.calls| && s.calls[c].Sending?
    ensures Admit(u, s, c).completed == s.completed
  {
    hide OneCall, Admit;
    AdmitPlaces(u, s, c);
  }

  lemma {:induction false} StaysCompleted(u: Setup, run: seq<State>, i: nat, j: nat, h: nat)
    requires IsRun(u, run) && i <= j < |run| && h in run[i].completed
    ensures h in run[j].completed
    decreases j
  {
    hide Enabled, Step;
    if i < j {
      StaysCompleted(u, run, i, j - 1, h);
      assert Steps(u, run[j - 1], run[j]);
      var a :| Enabled(run[j - 1], a) && run[j] == Step(u, run[j - 1], a);
      CompletedGrows(u, run[j - 1], a, h);
    }
  }

  lemma {:induction false} PendingIn(pending: map<nat, nat>, n: nat, id: nat)
    requires id in pending && id < n
    ensures pending[id] in PendingHandles(pending, n)
  {
    if id < n - 1 { PendingIn(pending, n - 1, id); }
  }

  lemma {:induction false} HandIn(calls: seq<Call>, c: nat, h: nat)
    requires c < |calls| && h in InHand(calls[c])
    ensures h in AllInHand(calls)
  {
    hide InHand;
    if c < |calls| - 1 { HandIn(calls[..|calls| - 1], c, h); }
  }

  /** A completed request is nowhere else: not pending, not queued and in no thread's hand. */
  lemma CompletedIsGone(u: Setup, run: seq<State>, j: nat, h: nat)
    requires IsRun(u, run) && j < |run| && h in run[j].completed
    ensures forall id :: id in run[j].pending ==> run[j].pending[id] != h
    ensures h !in run[j].queued
    ensures forall c {:trigger run[j].calls[c]} :: 0 <= c < |run[j].calls| ==> h !in InHand(run[j].calls[c])
  {
    hide IsRun, InHand;
    var s := run[j];
    RunInv(u, run, j);
    InOnePlace(u, run, j, h);
    forall id | id in s.pending ensures s.pending[id] != h {
      if s.pending[id] == h { PendingIn(s.pending, s.nextId, id); }
    }
    forall c {:trigger s.calls[c]} | 0 <= c < |s.calls| ensures h !in InHand(s.calls[c]) {
      if h in InHand(s.calls[c]) { HandIn(s.calls, c, h); }
    }
    assert h in s.queued ==> multiset(s.queued)[h] > 0;
  }

  /** A queued request whose stop launch() finds requested is completed in that step, and is never pending, queued or sent
      afterwards; one that is not stopped is handed to send() by that step. */
  lemma StoppedIsNotSent(u: Setup, run: seq<State>, i: nat, j: nat, c: nat, choice: Choice)
    requires IsRun(u, run) && i < j < |run| && Enabled(run[i], Advance(c, choice))
    requires run[i].calls[c].Launching? && run[i].calls[c].next.Some?
    requires run[i + 1] == Step(u, run[i], Advance(c, choice))
    ensures var h := run[i].calls[c].next.value;
      if choice.stopped then
        && h in run[j].completed && h !in run[j].queued
        && (forall id :: id in run[j].pending ==> run[j].pending[id] != h)
        && forall d {:trigger run[j].calls[d]} :: 0 <= d < |run[j].calls| ==> h !in InHand(run[j].calls[d])
      else run[i + 1].calls[c] == Sending(h, true)
  {
    hide IsRun, InHand;
    if choice.stopped {
      var h := run[i].calls[c].next.value;
      StaysCompleted(u, run, i + 1, j, h);
      CompletedIsGone(u, run, j, h);
    }
  }

  /** The queue lost nothing but its front, to a call that carries it on, and gained nothing. */
  predicate Advanced(s: State, t: State, c: nat) {
    t.queued == s.queued
    || (s.queued != [] && t.queued == s.queued[1..] && c < |t.calls| && Carried(t.calls[c]) == Some(s.queued[0]))
  }

  lemma AdmitQueues(u: Setup, s: State, c: nat)
    requires c < |s.calls| && s.calls[c].Sending?
    ensures Admit(u, s, c).queued == s.queued || Admit(u, s, c).queued == s.queued + [s.calls[c].h]
  {
  }

  lemma CallAdvances(u: Setup, s: State, c: nat, choice: Choice)
    requires c < |s.calls| && !s.calls[c].Finished? && !s.calls[c].Sending?
    ensures Advanced(s, AdvanceCall(u, s, c, choice), c)
  {
    hide Admit;
  }

  /** A request leaves the queue from the front, for launch(), or when the connection closes, and joins it at the back. */
  lemma QueueIsFifo(u: Setup, s: State, a: Action)
    requires Enabled(s, a)
    ensures var q, r := s.queued, Step(u, s, a).queued;
      || r == q
      || (q != [] && r == q[1..] && a.Advance? && a.c < |Step(u, s, a).calls|
          && Carried(Step(u, s, a).calls[a.c]) == Some(q[0]))
      || (a.Advance? && s.calls[a.c].Sending? && r == q + [s.calls[a.c].h])
      || (r == [] && a.CloseArrives?)
  {
    hide AdvanceCall, Carried;
    if a.Advance? && s.calls[a.c].Sending? {
      AdmitQueues(u, s, a.c);
      SendingAdmits(u, s, a.c, a.choice);
    } else if a.Advance? {
      CallAdvances(u, s, a.c, a.choice);
    }
  }

  lemma SendingAdmits(u: Setup, s: State, c: nat, choice: Choice)
    requires c < |s.calls| && s.calls[c].Sending?
    ensures AdvanceCall(u, s, c, choice) == Admit(u, s, c)
  {
    hide Admit;
  }
}
