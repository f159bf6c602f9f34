/** The coordinator's channel as a transition system: calls of any number of threads, each lock-protected
    section one step. Completions are numbered in the order they are handed to the channel. */
module Channel {
  import opened Jobs

  datatype Phase = Unconnected | Handshaking | Connected | Closed

  /** Where a thread stands inside the channel, and which completions it holds there. */
  datatype Call =
    | Sending(h: nat, handOver: bool)              // send(): about to take the lock with `h`
    | Transferring(id: nat)                        // send(): registered; payloads and frame go out
    | Registering(id: nat)                         // send(): about to register the cancel forward
    | Failing(id: nat)                             // failPending(): about to take the lock
    | Replying(id: nat)                            // handleReply(): about to take the lock
    | Completing(h: nat, next: Option<nat>)        // about to complete `h`, then to launch `next`
    | Launching(next: Option<nat>)                 // launch(): look at the stop token of `next`
    | Taking                                       // launch(): about to take the lock for another entry
    | Closing(hs: multiset<nat>)                   // onClosed(): completions left to fail
    | Finished

  /** What a completion is told. `Answered`: what the reply to its request id says, or the error that kept that request
      from going out. */
  datatype End = Succeeded | FailedWith(error: PipelineError) | Answered(id: nat)

  datatype State = State(
    phase: Phase,
    strategy: bool,                 // a payload strategy was negotiated
    limit: nat,                     // inFlightLimit_
    nextId: nat,
    pending: map<nat, nat>,         // request id -> completion
    queued: seq<nat>,
    calls: seq<Call>,
    onClosedSeen: bool,             // the transport delivered its one onClosed()
    // History:
    submitted: nat,                 // completions 0 .. submitted - 1 were handed to the channel
    completed: multiset<nat>,       // every completion, as often as it was completed
    ends: map<nat, End>,            // how each completion was decided
    issued: seq<nat>)               // request ids in the order they were used

  /** What never changes: the queue's capacity and, by completion, which requests carry an inline input
      above the limit. */
  datatype Setup = Setup(capacity: nat, big: set<nat>)

  function Init(): State {
    State(Unconnected, false, 0, 1, map[], [], [], false, 0, multiset{}, map[], [])
  }

  datatype Action =
    | Connect
    | Acknowledge(limit: nat, strategy: bool)
    | GiveUp                             // handshake timeout or rejection
    | Submit
    | ReplyArrives(id: nat)
    | CloseArrives
    | Advance(c: nat, choice: Choice)    // thread `c` takes its next step

  /** What a step finds outside the channel: whether the frame went out, whether the stop was requested,
      and which completion onClosed() fails next. */
  datatype Choice = Choice(sent: bool, stopped: bool, pick: nat)

  function SetCall(s: State, c: nat, call: Call): State
    requires c < |s.calls|
  {
    s.(calls := s.calls[c := call])
  }

  function Front(queued: seq<nat>): Option<nat> { if queued == [] then None else Some(queued[0]) }
  function Rest(queued: seq<nat>): seq<nat> { if queued == [] then [] else queued[1..] }

  /** send() gives up on `h` with `error`. */
  function Refuse(s: State, c: nat, h: nat, error: PipelineError): State
    requires c < |s.calls|
  {
    SetCall(s, c, Completing(h, None)).(ends := s.ends[h := FailedWith(error)])
  }

  function Enqueue(s: State, c: nat, h: nat): State
    requires c < |s.calls|
  {
    SetCall(s, c, Finished).(queued := s.queued + [h])
  }

  /** send() issues the next request id to `h`. */
  function Issue(s: State, c: nat, h: nat): State
    requires c < |s.calls|
  {
    SetCall(s, c, Transferring(s.nextId)).(
      pending := s.pending[s.nextId := h], nextId := s.nextId + 1, issued := s.issued + [s.nextId])
  }

  /** send() under the lock. */
  function Admit(u: Setup, s: State, c: nat): State
    requires c < |s.calls| && s.calls[c].Sending?
  {
    var h := s.calls[c].h;
    if s.phase != Connected then Refuse(s, c, h, Unavailable)
    else if !s.strategy && h in u.big then Refuse(s, c, h, JobFailed)
    else if |s.pending| >= s.limit then
      if |s.queued| < u.capacity then Enqueue(s, c, h) else Refuse(s, c, h, Busy)
    else Issue(s, c, h)
  }

  /** failPending() and handleReply() under the lock: take the request out, and the queue's front. */
  function Remove(s: State, c: nat, id: nat): State
    requires c < |s.calls|
  {
    if id !in s.pending then SetCall(s, c, Finished)
    else SetCall(s, c, Completing(s.pending[id], Front(s.queued))).(
      pending := s.pending - {id}, queued := Rest(s.queued), ends := s.ends[s.pending[id] := Answered(id)])
  }

  /** Completing a completion is one step of its own: no lock is held. */
  function Complete(s: State, c: nat): State
    requires c < |s.calls| && s.calls[c].Completing?
  {
    SetCall(s, c, Launching(s.calls[c].next)).(completed := s.completed + multiset{s.calls[c].h})
  }

  /** One turn of launch(): a stopped request is completed on the spot, any other goes to send(). */
  function Launch(s: State, c: nat, stopped: bool): State
    requires c < |s.calls| && s.calls[c].Launching?
  {
    match s.calls[c].next
    case None => SetCall(s, c, Finished)
    case Some(h) =>
      if stopped then SetCall(s, c, Taking).(completed := s.completed + multiset{h}, ends := s.ends[h := Succeeded])
      else SetCall(s, c, Sending(h, true))
  }

  /** launch() under the lock: take the queue's front. */
  function Take(s: State, c: nat): State
    requires c < |s.calls|
  {
    SetCall(s, c, Launching(Front(s.queued))).(queued := Rest(s.queued))
  }

  /** onClosed() fails one of the completions it took, or returns. */
  function FailNext(s: State, c: nat, pick: nat): State
    requires c < |s.calls| && s.calls[c].Closing?
  {
    var hs := s.calls[c].hs;
    if hs == multiset{} then SetCall(s, c, Finished)
    else SetCall(s, c, Closing(hs - multiset{pick})).(completed := s.completed + multiset{pick},
                                                      ends := s.ends[pick := FailedWith(Unavailable)])
  }

  function AdvanceCall(u: Setup, s: State, c: nat, choice: Choice): State
    requires c < |s.calls| && !s.calls[c].Finished?
  {
    match s.calls[c]
    case Sending(_, _) => Admit(u, s, c)
    case Transferring(id) => SetCall(s, c, if choice.sent then Registering(id) else Failing(id))
    case Registering(_) => SetCall(s, c, Finished)
    case Failing(id) => Remove(s, c, id)
    case Replying(id) => Remove(s, c, id)
    case Completing(_, _) => Complete(s, c)
    case Launching(_) => Launch(s, c, choice.stopped)
    case Taking => Take(s, c)
    case Closing(_) => FailNext(s, c, choice.pick)
  }

  /** The completions in `pending`, by request id below `n`. */
  function PendingHandles(pending: map<nat, nat>, n: nat): multiset<nat> {
    if n == 0 then multiset{}
    else PendingHandles(pending, n - 1) + (if n - 1 in pending then multiset{pending[n - 1]} else multiset{})
  }

  predicate Enabled(s: State, a: Action) {
    match a
    case Connect => s.phase == Unconnected && !s.onClosedSeen
    case Acknowledge(_, _) => s.phase == Handshaking
    case GiveUp => s.phase == Handshaking
    case Submit => true
    case ReplyArrives(_) => !s.onClosedSeen
    case CloseArrives => !s.onClosedSeen && s.phase != Unconnected
    case Advance(c, choice) =>
      c < |s.calls| && !s.calls[c].Finished?
      && (s.calls[c].Closing? && s.calls[c].hs != multiset{} ==> choice.pick in s.calls[c].hs)
  }

  function Step(u: Setup, s: State, a: Action): State
    requires Enabled(s, a)
  {
    match a
    case Connect => s.(phase := Handshaking)
    case Acknowledge(limit, strategy) => s.(phase := Connected, limit := limit, strategy := strategy)
    case GiveUp => s.(phase := Closed)
    case Submit => s.(calls := s.calls + [Sending(s.submitted, false)], submitted := s.submitted + 1)
    case ReplyArrives(id) => s.(calls := s.calls + [Replying(id)])
    case CloseArrives =>
      s.(phase := Closed, pending := map[], queued := [], onClosedSeen := true,
         calls := s.calls + [Closing(PendingHandles(s.pending, s.nextId) + multiset(s.queued))])
    case Advance(c, choice) => AdvanceCall(u, s, c, choice)
  }

  // ---- Sums over the calls ----

  function One(next: Option<nat>): multiset<nat> {
    if next.Some? then multiset{next.value} else multiset{}
  }

  function InHand(call: Call): multiset<nat> {
    match call
    case Sending(h, _) => multiset{h}
    case Completing(h, next) => multiset{h} + One(next)
    case Launching(next) => One(next)
    case Closing(hs) => hs
    case _ => multiset{}
  }

  /** The call will offer a queued request, or another one in its place, to the channel. */
  function HandsOver(call: Call): nat {
    match call
    case Sending(_, handOver) => if handOver then 1 else 0
    case Completing(_, next) => if next.Some? then 1 else 0
    case Launching(next) => if next.Some? then 1 else 0
    case Taking => 1
    case _ => 0
  }

  function AllInHand(calls: seq<Call>): multiset<nat> {
    if calls == [] then multiset{} else AllInHand(calls[..|calls| - 1]) + InHand(calls[|calls| - 1])
  }

  function HandOvers(calls: seq<Call>): nat {
    if calls == [] then 0 else HandOvers(calls[..|calls| - 1]) + HandsOver(calls[|calls| - 1])
  }

  lemma Exchange(a: multiset<nat>, b: multiset<nat>, x: multiset<nat>, y: multiset<nat>, rest: multiset<nat>)
    requires a + x == b + y
    ensures (a + rest) + x == (b + rest) + y
  {
    assert (a + rest) + x == (a + x) + rest && (b + rest) + y == (b + y) + rest;
  }

  lemma {:induction false} HandsUpdate(calls: seq<Call>, c: nat, call: Call)
    requires c < |calls|
    ensures AllInHand(calls[c := call]) + InHand(calls[c]) == AllInHand(calls) + InHand(call)
  {
    hide InHand;
    var n, after := |calls| - 1, calls[c := call];
    if c == n {
      assert after[..n] == calls[..n];
    } else {
      assert after[..n] == calls[..n][c := call] && after[n] == calls[n];
      HandsUpdate(calls[..n], c, call);
      Exchange(AllInHand(after[..n]), AllInHand(calls[..n]), InHand(calls[c]), InHand(call), InHand(calls[n]));
    }
  }

  lemma {:induction false} HandOversUpdate(calls: seq<Call>, c: nat, call: Call)
    requires c < |calls|
    ensures HandOvers(calls[c := call]) + HandsOver(calls[c]) == HandOvers(calls) + HandsOver(call)
  {
    hide HandsOver;
    var n, after := |calls| - 1, calls[c := call];
    if c == n {
      assert after[..n] == calls[..n];
    } else {
      assert after[..n] == calls[..n][c := call] && after[n] == calls[n];
      HandOversUpdate(calls[..n], c, call);
    }
  }

  lemma SumsAppend(calls: seq<Call>, call: Call)
    ensures AllInHand(calls + [call]) == AllInHand(calls) + InHand(call)
    ensures HandOvers(calls + [call]) == HandOvers(calls) + HandsOver(call)
  {
    assert (calls + [call])[..|calls|] == calls;
  }

  lemma {:induction false} PendingFrame(pending: map<nat, nat>, id: nat, n: nat)
    requires id in pending && id < n
    ensures PendingHandles(pending, n) == PendingHandles(pending - {id}, n) + multiset{pending[id]}
  {
    if n - 1 == id {
      PendingIgnores(pending, id, n - 1);
    } else {
      PendingFrame(pending, id, n - 1);
    }
  }

  lemma {:induction false} PendingIgnores(pending: map<nat, nat>, id: nat, n: nat)
    requires n <= id
    ensures PendingHandles(pending - {id}, n) == PendingHandles(pending, n)
  {
    if n > 0 {
      PendingIgnores(pending, id, n - 1);
      assert n - 1 in pending - {id} <==> n - 1 in pending;
    }
  }

  lemma {:induction false} PendingAdds(pending: map<nat, nat>, id: nat, h: nat, n: nat)
    requires n <= id
    ensures PendingHandles(pending[id := h], n) == PendingHandles(pending, n)
  {
    if n > 0 { PendingAdds(pending, id, h, n - 1); }
  }

  lemma {:induction false} PendingNone(n: nat)
    ensures PendingHandles(map[], n) == multiset{}
  {
    if n > 0 { PendingNone(n - 1); }
  }

  // ---- The invariant ----

  /** The completions handed over so far, each once. */
  function Submitted(n: nat): multiset<nat> {
    if n == 0 then multiset{} else Submitted(n - 1) + multiset{n - 1}
  }

  /** No completion is lost or duplicated: it is pending, queued, in some thread's hand or completed. */
  predicate Conserved(s: State) {
    Submitted(s.submitted)
      == PendingHandles(s.pending, s.nextId) + multiset(s.queued) + AllInHand(s.calls) + s.completed
  }

  /** A request that could not be sent at all is never queued or handed over. */
  predicate Sendable(u: Setup, s: State, h: nat) { s.strategy || h !in u.big }

  /** The queued request a call carries on to the channel. */
  function Carried(call: Call): Option<nat> {
    match call
    case Sending(h, handOver) => if handOver then Some(h) else None
    case Completing(_, next) => next
    case Launching(next) => next
    case _ => None
  }

  predicate CallOk(u: Setup, s: State, call: Call) {
    && (s.phase == Unconnected || s.phase == Handshaking ==> HandsOver(call) == 0)
    && (s.phase == Connected && Carried(call).Some? ==> Sendable(u, s, Carried(call).value))
    && (call.Closing? ==> s.onClosedSeen)
  }

  ghost predicate Shaped(u: Setup, s: State) {
    && s.nextId >= 1
    && (forall id :: id in s.pending ==> 1 <= id < s.nextId)
    && (s.phase != Connected ==> s.pending == map[] && s.queued == [])
    && (s.onClosedSeen ==> s.phase == Closed)
    && (s.phase == Connected ==> |s.pending| <= s.limit)
    && |s.queued| <= u.capacity
    && |s.issued| == s.nextId - 1 && (forall i :: 0 <= i < |s.issued| ==> s.issued[i] == i + 1)
    && (forall h :: h in s.queued ==> Sendable(u, s, h))
    && (forall c {:trigger s.calls[c]} :: 0 <= c < |s.calls| ==> CallOk(u, s, s.calls[c]))
  }

  /** A queued request never waits beside a free slot that nobody is about to offer to the queue. */
  predicate NoneStranded(s: State) {
    s.phase == Connected && s.queued != [] ==> |s.pending| + HandOvers(s.calls) >= s.limit
  }

  ghost predicate Inv(u: Setup, s: State) {
    Shaped(u, s) && Conserved(s) && NoneStranded(s)
  }

  lemma InitHolds(u: Setup)
    ensures Inv(u, Init())
  {
  }

  lemma FrontRest(q: seq<nat>)
    ensures multiset(q) == multiset(Rest(q)) + One(Front(q))
    ensures Front(q).Some? ==> Front(q).value in q
    ensures forall h :: h in Rest(q) ==> h in q
  {
    if q != [] { assert q == [q[0]] + q[1..]; }
  }

  /** One call changes, perhaps with the queue, the pending table and the completions. */
  predicate OneCall(s: State, t: State, c: nat) {
    && c < |s.calls| == |t.calls| && t.calls == s.calls[c := t.calls[c]]
    && t.phase == s.phase && t.strategy == s.strategy && t.limit == s.limit
    && t.onClosedSeen == s.onClosedSeen && t.submitted == s.submitted
  }

  lemma ShapedCall(u: Setup, s: State, t: State, c: nat)
    requires Shaped(u, s) && OneCall(s, t, c)
    requires t.nextId == s.nextId && t.issued == s.issued
    requires forall id :: id in t.pending ==> id in s.pending
    requires |t.pending| <= |s.pending| && |t.queued| <= u.capacity
    requires s.phase != Connected ==> t.queued == []
    requires forall h :: h in t.queued ==> Sendable(u, s, h)
    requires CallOk(u, s, t.calls[c])
    ensures Shaped(u, t)
  {
    hide InHand, HandsOver, Carried;
    forall d {:trigger t.calls[d]} | 0 <= d < |t.calls| ensures CallOk(u, t, t.calls[d]) {
      assert CallOk(u, s, s.calls[d]);
    }
    assert t.pending == map[] || s.phase == Connected;
  }

  /** The completions that are not in a call's hand. */
  function Outside(s: State): multiset<nat> {
    PendingHandles(s.pending, s.nextId) + multiset(s.queued) + s.completed
  }

  lemma ConservedCall(s: State, t: State, c: nat)
    requires Conserved(s) && OneCall(s, t, c)
    requires Outside(t) + InHand(t.calls[c]) == Outside(s) + InHand(s.calls[c])
    ensures Conserved(t)
  {
    hide AllInHand, InHand, PendingHandles, Submitted, Outside;
    HandsUpdate(s.calls, c, t.calls[c]);
    ConservedAs(s);
    ConservedAs(t);
    Swap(Outside(s), Outside(t), AllInHand(s.calls), AllInHand(t.calls), InHand(s.calls[c]), InHand(t.calls[c]));
  }

  lemma ConservedAs(s: State)
    ensures Conserved(s) <==> Submitted(s.submitted) == Outside(s) + AllInHand(s.calls)
  {
    hide AllInHand, PendingHandles, Submitted;
    assert PendingHandles(s.pending, s.nextId) + multiset(s.queued) + AllInHand(s.calls) + s.completed
        == Outside(s) + AllInHand(s.calls);
  }

  lemma Swap(o: multiset<nat>, p: multiset<nat>, a: multiset<nat>, b: multiset<nat>, x: multiset<nat>, y: multiset<nat>)
    requires p + y == o + x && b + x == a + y
    ensures o + a == p + b
  {
    forall h: nat ensures (o + a)[h] == (p + b)[h] {
      assert (p + y)[h] == (o + x)[h] && (b + x)[h] == (a + y)[h];
    }
  }

  lemma NoneStrandedCall(s: State, t: State, c: nat)
    requires NoneStranded(s) && OneCall(s, t, c)
    requires s.phase == Connected && t.queued != [] ==>
      (s.queued != [] && |t.pending| + HandsOver(t.calls[c]) >= |s.pending| + HandsOver(s.calls[c]))
      || |t.pending| >= s.limit
    ensures NoneStranded(t)
  {
    hide HandOvers, HandsOver;
    HandOversUpdate(s.calls, c, t.calls[c]);
  }

  lemma ShapedFacts(u: Setup, s: State)
    requires Shaped(u, s)
    ensures s.nextId !in s.pending
    ensures forall id :: id in s.pending ==> id < s.nextId
    ensures s.phase != Connected ==> s.pending == map[] && s.queued == []
    ensures forall c {:trigger s.calls[c]} :: 0 <= c < |s.calls| ==> CallOk(u, s, s.calls[c])
    ensures forall h :: h in s.queued ==> Sendable(u, s, h)
    ensures |s.queued| <= u.capacity
  {
  }

  lemma PendingLast(pending: map<nat, nat>, n: nat)
    requires n > 0 && n - 1 in pending
    ensures PendingHandles(pending, n) == PendingHandles(pending, n - 1) + multiset{pending[n - 1]}
  {
  }

  // ---- send() ----

  lemma RefuseShaped(u: Setup, s: State, c: nat, error: PipelineError)
    requires Shaped(u, s) && c < |s.calls| && s.calls[c].Sending?
    ensures Shaped(u, Refuse(s, c, s.calls[c].h, error))
  {
    ShapedCall(u, s, Refuse(s, c, s.calls[c].h, error), c);
  }

  lemma EnqueueShaped(u: Setup, s: State, c: nat)
    requires Shaped(u, s) && c < |s.calls| && s.calls[c].Sending? && s.phase == Connected && |s.queued| < u.capacity
    requires Sendable(u, s, s.calls[c].h)
    ensures Shaped(u, Enqueue(s, c, s.calls[c].h))
  {
    ShapedCall(u, s, Enqueue(s, c, s.calls[c].h), c);
  }

  lemma IssueShaped(u: Setup, s: State, c: nat)
    requires Shaped(u, s) && c < |s.calls| && s.calls[c].Sending? && s.phase == Connected && |s.pending| < s.limit
    ensures Shaped(u, Issue(s, c, s.calls[c].h))
  {
    var t := Issue(s, c, s.calls[c].h);
    assert s.nextId !in s.pending;
    assert |t.pending| == |s.pending| + 1;
    forall d {:trigger t.calls[d]} | 0 <= d < |t.calls| ensures CallOk(u, t, t.calls[d]) {
      assert CallOk(u, s, s.calls[d]);
    }
  }

  lemma AdmitShaped(u: Setup, s: State, c: nat)
    requires Shaped(u, s) && c < |s.calls| && s.calls[c].Sending?
    ensures Shaped(u, Admit(u, s, c))
  {
    hide Shaped, Refuse, Enqueue, Issue;
    var h := s.calls[c].h;
    if s.phase != Connected { RefuseShaped(u, s, c, Unavailable); }
    else if !Sendable(u, s, h) { RefuseShaped(u, s, c, JobFailed); }
    else if |s.pending| < s.limit { IssueShaped(u, s, c); }
    else if |s.queued| < u.capacity { EnqueueShaped(u, s, c); }
    else { RefuseShaped(u, s, c, Busy); }
  }

  lemma OutsideRegistered(s: State, t: State, h: nat)
    requires s.nextId !in s.pending && t.pending == s.pending[s.nextId := h] && t.nextId == s.nextId + 1
    requires t.queued == s.queued && t.completed == s.completed
    ensures Outside(t) == Outside(s) + multiset{h}
  {
    hide PendingHandles;
    PendingAdds(s.pending, s.nextId, h, s.nextId);
    PendingLast(t.pending, t.nextId);
  }

  lemma OutsideQueued(s: State, t: State, h: nat)
    requires t.pending == s.pending && t.nextId == s.nextId && t.completed == s.completed
    requires t.queued == s.queued + [h]
    ensures Outside(t) == Outside(s) + multiset{h}
  {
    hide PendingHandles;
    assert multiset(t.queued) == multiset(s.queued) + multiset{h};
  }

  lemma OutsideTaken(s: State, t: State)
    requires t.pending == s.pending && t.nextId == s.nextId && t.completed == s.completed
    requires t.queued == Rest(s.queued)
    ensures Outside(s) == Outside(t) + One(Front(s.queued))
  {
    hide PendingHandles;
    FrontRest(s.queued);
  }

  lemma OutsideRemoved(s: State, t: State, id: nat)
    requires id in s.pending && id < s.nextId && t.pending == s.pending - {id} && t.nextId == s.nextId
    requires t.queued == s.queued && t.completed == s.completed
    ensures Outside(s) == Outside(t) + multiset{s.pending[id]}
  {
    hide PendingHandles;
    PendingFrame(s.pending, id, s.nextId);
  }

  lemma AdmitConserved(u: Setup, s: State, c: nat)
    requires Shaped(u, s) && Conserved(s) && c < |s.calls| && s.calls[c].Sending?
    ensures Conserved(Admit(u, s, c))
  {
    hide Shaped, Conserved, Outside, Admit, OneCall, InHand;
    var h := s.calls[c].h;
    var t := Admit(u, s, c);
    AdmitPlaces(u, s, c);
    if t.nextId != s.nextId {
      ShapedFacts(u, s);
      OutsideRegistered(s, t, h);
    } else if t.queued != s.queued {
      OutsideQueued(s, t, h);
    } else {
      OutsideSame(s, t);
    }
    ConservedCall(s, t, c);
  }

  /** From `s` to `t` the completion `h` goes from the call's hand into the pending table, into the queue, or stays. */
  predicate Placed(s: State, t: State, c: nat, h: nat) {
    && OneCall(s, t, c) && t.completed == s.completed
    && (if t.nextId != s.nextId then
          t.pending == s.pending[s.nextId := h] && t.nextId == s.nextId + 1 && t.queued == s.queued
          && InHand(t.calls[c]) == multiset{}
        else if t.queued != s.queued then
          t.pending == s.pending && t.queued == s.queued + [h] && InHand(t.calls[c]) == multiset{}
        else t.pending == s.pending && InHand(t.calls[c]) == multiset{h})
  }

  lemma RefusePlaces(s: State, c: nat, h: nat, error: PipelineError)
    requires c < |s.calls|
    ensures Placed(s, Refuse(s, c, h, error), c, h)
  {
  }

  lemma EnqueuePlaces(s: State, c: nat, h: nat)
    requires c < |s.calls|
    ensures Placed(s, Enqueue(s, c, h), c, h)
  {
  }

  lemma IssuePlaces(s: State, c: nat, h: nat)
    requires c < |s.calls|
    ensures Placed(s, Issue(s, c, h), c, h)
  {
  }

  lemma AdmitPlaces(u: Setup, s: State, c: nat)
    requires c < |s.calls| && s.calls[c].Sending?
    ensures Placed(s, Admit(u, s, c), c, s.calls[c].h) && InHand(s.calls[c]) == multiset{s.calls[c].h}
  {
    hide Refuse, Enqueue, Issue, Placed;
    var h := s.calls[c].h;
    RefusePlaces(s, c, h, Unavailable);
    RefusePlaces(s, c, h, JobFailed);
    RefusePlaces(s, c, h, Busy);
    EnqueuePlaces(s, c, h);
    IssuePlaces(s, c, h);
  }

  lemma OutsideSame(s: State, t: State)
    requires t.pending == s.pending && t.nextId == s.nextId && t.completed == s.completed && t.queued == s.queued
    ensures Outside(t) == Outside(s)
  {
  }

  lemma AdmitKeeps(u: Setup, s: State, c: nat)
    requires Inv(u, s) && c < |s.calls| && s.calls[c].Sending?
    ensures Inv(u, Admit(u, s, c))
  {
    hide AllInHand, HandOvers, Submitted, PendingHandles, Shaped, Conserved;
    AdmitShaped(u, s, c);
    AdmitConserved(u, s, c);
    var t := Admit(u, s, c);
    ShapedFacts(u, s);
    assert CallOk(u, s, s.calls[c]);
    if t.nextId != s.nextId { assert |t.pending| == |s.pending| + 1; }
    NoneStrandedCall(s, t, c);
  }

  // ---- failPending() and handleReply() ----

  lemma TakeOutConserved(u: Setup, s: State, t: State, c: nat, id: nat)
    requires Shaped(u, s) && Conserved(s) && OneCall(s, t, c) && InHand(s.calls[c]) == multiset{}
    requires id in s.pending && t.pending == s.pending - {id} && t.queued == Rest(s.queued)
    requires t.nextId == s.nextId && t.completed == s.completed
    requires t.calls[c] == Completing(s.pending[id], Front(s.queued))
    ensures Conserved(t)
  {
    hide AllInHand, Submitted, PendingHandles, Shaped, Conserved, HandOvers, Outside, OneCall;
    ShapedFacts(u, s);
    var between := s.(pending := s.pending - {id});
    OutsideRemoved(s, between, id);
    OutsideTaken(between, t);
    Regroup(Outside(t), One(Front(s.queued)), multiset{s.pending[id]});
    ConservedCall(s, t, c);
  }

  lemma Regroup(a: multiset<nat>, b: multiset<nat>, c: multiset<nat>)
    ensures (a + b) + c == a + (c + b)
  {
  }

  lemma TakeOutKeeps(u: Setup, s: State, t: State, c: nat, id: nat)
    requires Inv(u, s) && OneCall(s, t, c) && InHand(s.calls[c]) == multiset{} && HandsOver(s.calls[c]) == 0
    requires id in s.pending && t.pending == s.pending - {id} && t.queued == Rest(s.queued)
    requires t.nextId == s.nextId && t.completed == s.completed && t.issued == s.issued
    requires t.calls[c] == Completing(s.pending[id], Front(s.queued))
    ensures Inv(u, t)
  {
    hide AllInHand, HandOvers, Submitted, PendingHandles, Shaped, Conserved, OneCall, InHand;
    ShapedFacts(u, s);
    FrontRest(s.queued);
    assert |t.pending| == |s.pending| - 1;
    TakeOutConserved(u, s, t, c, id);
    ShapedCall(u, s, t, c);
    NoneStrandedCall(s, t, c);
  }

  lemma RemoveKeeps(u: Setup, s: State, c: nat, id: nat)
    requires Inv(u, s) && c < |s.calls| && (s.calls[c] == Failing(id) || s.calls[c] == Replying(id))
    ensures Inv(u, Remove(s, c, id))
  {
    hide Inv, AllInHand, HandOvers, PendingHandles;
    var t := Remove(s, c, id);
    if id in s.pending { TakeOutKeeps(u, s, t, c, id); } else { HandlesMove(u, s, t, c, multiset{}); }
  }

  // ---- Every other step of a call ----

  /** A call that touches neither the queue nor the pending table, and completes `done` of what it holds. */
  lemma HandlesMove(u: Setup, s: State, t: State, c: nat, done: multiset<nat>)
    requires Inv(u, s) && OneCall(s, t, c)
    requires t.nextId == s.nextId && t.issued == s.issued && t.pending == s.pending && t.queued == s.queued
    requires t.completed == s.completed + done && InHand(s.calls[c]) == done + InHand(t.calls[c])
    requires HandsOver(t.calls[c]) == HandsOver(s.calls[c]) && (t.calls[c].Closing? ==> s.calls[c].Closing?)
    requires Carried(t.calls[c]) == None || Carried(t.calls[c]) == Carried(s.calls[c])
    ensures Inv(u, t)
  {
    hide AllInHand, HandOvers, Submitted, PendingHandles, Shaped, Conserved, InHand, HandsOver, Carried;
    ShapedFacts(u, s);
    assert CallOk(u, s, s.calls[c]);
    ShapedCall(u, s, t, c);
    NoneStrandedCall(s, t, c);
    assert Outside(t) + InHand(t.calls[c]) == Outside(s) + InHand(s.calls[c]);
    ConservedCall(s, t, c);
  }

  lemma TakingShaped(u: Setup, s: State, c: nat)
    requires Shaped(u, s) && c < |s.calls| && s.calls[c].Taking?
    ensures Shaped(u, Take(s, c))
  {
    hide Shaped, Sendable;
    var t := Take(s, c);
    ShapedFacts(u, s);
    assert CallOk(u, s, s.calls[c]);
    FrontRest(s.queued);
    ShapedCall(u, s, t, c);
  }

  lemma TakingConserved(s: State, c: nat)
    requires Conserved(s) && c < |s.calls| && s.calls[c].Taking?
    ensures Conserved(Take(s, c))
  {
    hide Conserved, Outside;
    var t := Take(s, c);
    OutsideTaken(s, t);
    ConservedCall(s, t, c);
  }

  lemma TakingStrands(s: State, c: nat)
    requires NoneStranded(s) && c < |s.calls| && s.calls[c].Taking?
    ensures NoneStranded(Take(s, c))
  {
    hide NoneStranded;
    NoneStrandedCall(s, Take(s, c), c);
  }

  lemma TakingKeeps(u: Setup, s: State, c: nat)
    requires Inv(u, s) && c < |s.calls| && s.calls[c].Taking?
    ensures Inv(u, Take(s, c))
  {
    hide Shaped, Conserved, NoneStranded, Take;
    TakingShaped(u, s, c);
    TakingConserved(s, c);
    TakingStrands(s, c);
  }

  lemma LaunchKeeps(u: Setup, s: State, c: nat, stopped: bool)
    requires Inv(u, s) && c < |s.calls| && s.calls[c].Launching?
    ensures Inv(u, Launch(s, c, stopped))
  {
    hide Inv, AllInHand, HandOvers, PendingHandles;
    var t, next := Launch(s, c, stopped), s.calls[c].next;
    if next.Some? && stopped {
      HandlesMove(u, s, t, c, multiset{next.value});
    } else {
      HandlesMove(u, s, t, c, multiset{});
    }
  }

  lemma FailNextKeeps(u: Setup, s: State, c: nat, pick: nat)
    requires Inv(u, s) && c < |s.calls| && s.calls[c].Closing?
    requires s.calls[c].hs != multiset{} ==> pick in s.calls[c].hs
    ensures Inv(u, FailNext(s, c, pick))
  {
    hide Inv;
    var t, hs := FailNext(s, c, pick), s.calls[c].hs;
    if hs == multiset{} {
      HandlesMove(u, s, t, c, hs);
    } else {
      PickOne(hs, pick);
      HandlesMove(u, s, t, c, multiset{pick});
    }
  }

  lemma PickOne(hs: multiset<nat>, pick: nat)
    requires pick in hs
    ensures hs == multiset{pick} + (hs - multiset{pick})
  {
  }

  lemma CompleteKeeps(u: Setup, s: State, c: nat)
    requires Inv(u, s) && c < |s.calls| && s.calls[c].Completing?
    ensures Inv(u, Complete(s, c))
  {
    hide Inv, AllInHand, HandOvers, PendingHandles;
    HandlesMove(u, s, Complete(s, c), c, multiset{s.calls[c].h});
  }

  lemma TransferKeeps(u: Setup, s: State, c: nat, call: Call)
    requires Inv(u, s) && c < |s.calls| && (s.calls[c].Transferring? || s.calls[c].Registering?)
    requires call.Registering? || call.Failing? || call.Finished?
    ensures Inv(u, SetCall(s, c, call))
  {
    hide Inv, AllInHand, HandOvers, PendingHandles;
    HandlesMove(u, s, SetCall(s, c, call), c, multiset{});
  }

  lemma AdvanceKeeps(u: Setup, s: State, c: nat, choice: Choice)
    requires Inv(u, s) && Enabled(s, Advance(c, choice))
    ensures Inv(u, AdvanceCall(u, s, c, choice))
  {
    hide Inv, Admit, Remove, Complete, Launch, Take, FailNext, SetCall;
    match s.calls[c]
    case Sending(_, _) => AdmitKeeps(u, s, c);
    case Transferring(id) => TransferKeeps(u, s, c, if choice.sent then Registering(id) else Failing(id));
    case Registering(_) => TransferKeeps(u, s, c, Finished);
    case Failing(id) => RemoveKeeps(u, s, c, id);
    case Replying(id) => RemoveKeeps(u, s, c, id);
    case Completing(_, _) => CompleteKeeps(u, s, c);
    case Launching(_) => LaunchKeeps(u, s, c, choice.stopped);
    case Taking => TakingKeeps(u, s, c);
    case Closing(_) => FailNextKeeps(u, s, c, choice.pick);
  }

  // ---- New calls and the connection's own steps ----

  lemma NewCall(u: Setup, s: State, t: State, call: Call)
    requires Inv(u, s) && t == s.(calls := s.calls + [call], submitted := t.submitted)
    requires HandsOver(call) == 0 && Carried(call) == None && !call.Closing?
    requires Submitted(t.submitted) == Submitted(s.submitted) + InHand(call)
    ensures Inv(u, t)
  {
    hide AllInHand, HandOvers, HandsOver, InHand, Carried, Submitted, PendingHandles, Shaped;
    NewCallShaped(u, s, t, call);
    SumsAppend(s.calls, call);
  }

  lemma NewCallShaped(u: Setup, s: State, t: State, call: Call)
    requires Shaped(u, s) && t == s.(calls := s.calls + [call], submitted := t.submitted)
    requires HandsOver(call) == 0 && Carried(call) == None && !call.Closing?
    ensures Shaped(u, t)
  {
    hide HandsOver, Carried;
    forall d {:trigger t.calls[d]} | 0 <= d < |t.calls| ensures CallOk(u, t, t.calls[d]) {
      if d < |s.calls| { assert CallOk(u, s, s.calls[d]); }
    }
  }

  lemma CloseKeeps(u: Setup, s: State)
    requires Inv(u, s) && Enabled(s, CloseArrives)
    ensures Inv(u, Step(u, s, CloseArrives))
  {
    hide AllInHand, HandOvers, Submitted, PendingHandles;
    var call := Closing(PendingHandles(s.pending, s.nextId) + multiset(s.queued));
    var t := Step(u, s, CloseArrives);
    SumsAppend(s.calls, call);
    PendingNone(s.nextId);
    forall d {:trigger t.calls[d]} | 0 <= d < |t.calls| ensures CallOk(u, t, t.calls[d]) {
      if d < |s.calls| { assert CallOk(u, s, s.calls[d]); }
    }
  }

  lemma PhaseKeeps(u: Setup, s: State, a: Action)
    requires Inv(u, s) && Enabled(s, a) && (a.Connect? || a.Acknowledge? || a.GiveUp?)
    ensures Inv(u, Step(u, s, a))
  {
    hide AllInHand, HandOvers, Submitted, PendingHandles;
    var t := Step(u, s, a);
    forall d {:trigger t.calls[d]} | 0 <= d < |t.calls| ensures CallOk(u, t, t.calls[d]) {
      assert CallOk(u, s, s.calls[d]);
    }
  }

  lemma StepKeeps(u: Setup, s: State, a: Action)
    requires Inv(u, s) && Enabled(s, a)
    ensures Inv(u, Step(u, s, a))
  {
    hide AllInHand, HandOvers, Submitted, PendingHandles, Inv;
    match a
    case Advance(c, choice) => AdvanceKeeps(u, s, c, choice);
    case Submit =>
      SubmittedNext(s.submitted);
      NewCall(u, s, Step(u, s, a), Sending(s.submitted, false));
    case ReplyArrives(id) => NewCall(u, s, Step(u, s, a), Replying(id));
    case CloseArrives => CloseKeeps(u, s);
    case _ => PhaseKeeps(u, s, a);
  }

  lemma SubmittedNext(n: nat)
    ensures Submitted(n + 1) == Submitted(n) + multiset{n}
  {
  }
}
