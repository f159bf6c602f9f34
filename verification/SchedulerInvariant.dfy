/** The inductive invariant of the threaded run, in groups that are re-established separately.
    Predicates about one node take that node's record and control point as values, so that they carry
    over by equality to every step that leaves the node alone. */
module SchedulerInvariant {
  import opened Jobs
  import opened Graphs
  import opened Scheduler

  /** The body returned and its status was stored. */
  predicate Finished(nd: Node) {
    nd.entered == 1 && nd.outcome.Some? && nd.status == StatusOf(nd.outcome.value)
  }

  predicate FatalEnd(optional: bool, nd: Node) {
    nd.outcome.Some? && FatalResult(optional, nd.outcome.value)
  }

  predicate Unstarted(nd: Node) { nd.entered == 0 && nd.outcome == None }

  /** What a node's own record, control point and consumed edges say together. */
  predicate PcOk(optional: bool, nd: Node, pc: Pc, cut: nat, fatal: bool) {
    && (pc == Idle || nd.unmet == 0)
    && match pc
    case Idle => Unstarted(nd) && cut == 0 && nd.status in {Pending, Ready, Skipped, Failed}
    case Queued => Unstarted(nd) && cut == 0 && nd.status in {Ready, Skipped}
    case Claiming => Unstarted(nd) && cut == 0 && nd.status in {Ready, Skipped}
    case InBody => nd.entered == 1 && nd.outcome == None && cut == 0 && nd.status == Running
    case Waiting => nd.entered == 1 && nd.outcome == None && cut == 0 && nd.status == Awaiting
    case Storing => nd.entered == 1 && nd.outcome.Some? && cut == 0 && nd.status in {Running, Awaiting}
    case Recording => Finished(nd) && FatalEnd(optional, nd) && cut == 0
    case Failing(_) => Finished(nd) && FatalEnd(optional, nd) && cut == 0 && fatal
    case Ended =>
      || (Unstarted(nd) && cut == 0 && nd.status == Skipped)
      || (Finished(nd) && (FatalEnd(optional, nd) ==> fatal && cut == 0))
    case Edge(k) => Finished(nd) && !FatalEnd(optional, nd) && cut <= k && (cut == k || fatal)
    case Decrement(k) => Finished(nd) && !FatalEnd(optional, nd) && cut == k
    case Waking(k) => Finished(nd) && !FatalEnd(optional, nd) && cut == k + 1
    case Dispatching(k) => Finished(nd) && !FatalEnd(optional, nd) && cut == k + 1
    case _ => Finished(nd) && !FatalEnd(optional, nd)
  }

  predicate RecordOk(nd: Node) {
    && (nd.status != Pending && nd.status != Skipped ==> nd.unmet == 0)
    && (nd.status in {Done, TimedOut, WasCancelled, Failed} ==> nd.counted == 1)
    && (nd.status in {Pending, Ready, Running, Awaiting} ==> nd.counted == 0)
  }

  ghost predicate LocalsOk(p: Plan, s: State)
    requires Shape(p, s)
  {
    && (forall v {:trigger s.nodes[v]} :: 0 <= v < |p.g| ==> RecordOk(s.nodes[v]))
    && (forall v {:trigger s.pcs[v]} {:trigger s.nodes[v]} :: 0 <= v < |p.g| ==>
          PcOk(p.optional[v], s.nodes[v], s.pcs[v], s.cut[v], s.fatal))
  }

  // ---- Dependency counts ----

  ghost predicate EdgesOk(p: Plan, s: State)
    requires Shape(p, s)
  {
    forall v {:trigger s.nodes[v]} :: 0 <= v < |p.g| ==> s.nodes[v].unmet == Open(p.g, s.cut, v)
  }

  // ---- Who submits whom ----

  /** The node that agent `a` holds: it is about to submit it or contains its rejection. */
  ghost function Held(p: Plan, a: nat, pc: Pc): Option<nat>
    requires PcShape(p, a, pc)
  {
    match pc
    case Waking(k) => Some(p.g[a][k])
    case Dispatching(k) => Some(Out(p, a)[k])
    case Rejecting(v) => Some(v)
    case RejectRecording(v) => Some(v)
    case _ => None
  }

  /** A node held at `pc` has no agent yet, and only its holder made it ready. */
  ghost predicate HeldOk(p: Plan, s: State, a: nat, pc: Pc)
    requires Shape(p, s) && PcShape(p, a, pc)
  {
    var h := Held(p, a, pc);
    h.Some? ==>
      && h.value < |p.g| && s.pcs[h.value] == Idle && s.nodes[h.value].lastBy == Some(a)
      && (pc.RejectRecording? ==> s.fatal || s.nodes[h.value].status == Failed)
      && (pc.Dispatching? || pc.Rejecting? ==> s.nodes[h.value].status in {Ready, Skipped})
  }

  /** Roots that the submitting thread, at `pc`, has not handed over have no agent. */
  ghost predicate RootsIdle(p: Plan, s: State, pc: Pc)
    requires Shape(p, s)
  {
    pc.Edge? || pc.Dispatching? ==> forall i :: pc.k <= i < |Roots(p)| ==> s.pcs[Roots(p)[i]] == Idle
  }

  predicate LastByOk(p: Plan, v: nat, nd: Node) {
    && (nd.lastBy.Some? ==> nd.unmet == 0 && nd.lastBy.value <= |p.g|)
    && (nd.lastBy == Some(|p.g|) <==> IsRoot(p, v))
  }

  ghost predicate HoldsOk(p: Plan, s: State)
    requires Shape(p, s)
  {
    && (forall v {:trigger s.nodes[v]} :: 0 <= v < |p.g| ==> LastByOk(p, v, s.nodes[v]))
    && (forall a {:trigger s.pcs[a]} :: 0 <= a <= |p.g| ==> HeldOk(p, s, a, s.pcs[a]))
    && RootsIdle(p, s, s.pcs[|p.g|])
  }

  // ---- Nobody is forgotten ----

  /** Agent `u`, which made `v` ready, will still submit it, reject it or skip it. */
  ghost predicate WillHandle(p: Plan, u: nat, pc: Pc, v: nat)
    requires u <= |p.g| && PcShape(p, u, pc)
  {
    match pc
    case Dispatching(k) => Out(p, u)[k] == v || (u == |p.g| && v in Roots(p)[k..])
    case Edge(k) => u == |p.g| && v in Roots(p)[k..]
    case Rejecting(w) => w == v || u == |p.g|
    case RejectRecording(_) => u == |p.g|
    case Sweeping(q) => u == |p.g| && q <= v
    case _ => false
  }

  /** The control point of the agent that made `v` ready. */
  ghost function OwnerPc(p: Plan, s: State, v: nat): Pc
    requires Shape(p, s) && v < |p.g|
  {
    if s.nodes[v].lastBy.Some? && s.nodes[v].lastBy.value <= |p.g| then s.pcs[s.nodes[v].lastBy.value] else Ended
  }

  ghost predicate OwnedOk(p: Plan, s: State, v: nat)
    requires Shape(p, s) && v < |p.g|
  {
    var nd := s.nodes[v];
    var pc := OwnerPc(p, s, v);
    && (nd.status == Ready ==>
          || s.pcs[v] == Queued || s.pcs[v] == Claiming
          || (s.pcs[v] == Idle && nd.lastBy.Some? && nd.lastBy.value <= |p.g|
              && WillHandle(p, nd.lastBy.value, pc, v)))
    && (nd.status == Pending && nd.unmet == 0 ==>
          || (InDegree(p.g, v) == 0 && p.onDemand[v])
          || (pc.Waking? && p.g[nd.lastBy.value][pc.k] == v))
    && (nd.status == Failed && s.pcs[v] == Idle ==> s.swept || pc == RejectRecording(v) || pc.Sweeping?)
  }

  ghost predicate OwnersOk(p: Plan, s: State)
    requires Shape(p, s)
  {
    forall v {:trigger s.nodes[v]} {:trigger OwnedOk(p, s, v)} :: 0 <= v < |p.g| ==> OwnedOk(p, s, v)
  }

  // ---- The skip worklist ----

  /** Worklist entry `i` has been read and all its successors have been claimed. */
  predicate Drained(skipRead: nat, drain: Drain, i: nat) {
    i < skipRead && !(i == skipRead - 1 && drain.Expand?)
  }

  predicate Listed(skipped: seq<nat>, v: nat) { v in skipped }

  ghost predicate WorklistOk(p: Plan, s: State)
    requires Shape(p, s)
  {
    && (s.skipRead < |s.skipped| ==> !s.drain.NotDraining?)
    && (forall i, j :: 0 <= i < j < |s.skipped| ==> s.skipped[i] != s.skipped[j])
    && (forall i :: 0 <= i < |s.skipped| ==>
          && s.nodes[s.skipped[i]].status == Skipped
          && s.nodes[s.skipped[i]].counted == (if Drained(s.skipRead, s.drain, i) then 1 else 0))
    && (forall v {:trigger Listed(s.skipped, v)} :: 0 <= v < |p.g| && s.nodes[v].status == Skipped ==> Listed(s.skipped, v))
    && (s.drain.Expand? ==> s.skipRead > 0 && s.skipped[s.skipRead - 1] == s.drain.u)
  }

  // ---- Which nodes are settled ----

  /** The first `k` entries of `out`, from `from` on, are settled. */
  ghost predicate AllSettled(s: State, out: seq<nat>, from: nat, k: nat) {
    forall i :: from <= i < k && i < |out| && out[i] < |s.nodes| ==> Settled(s, out[i])
  }

  /** The successors that `u`'s agent has passed over without decrementing are settled. */
  ghost predicate PassedOk(p: Plan, s: State, u: nat)
    requires Shape(p, s) && u < |p.g|
  {
    match s.pcs[u]
    case Failing(k) => AllSettled(s, p.g[u], 0, k)
    case Edge(k) => AllSettled(s, p.g[u], s.cut[u], k)
    case Ended => s.nodes[u].outcome.Some? ==> AllSettled(s, p.g[u], s.cut[u], |p.g[u]|)
    case _ => true
  }

  ghost predicate SweptTo(s: State, q: nat) {
    forall v :: 0 <= v < q && v < |s.nodes| ==> Settled(s, v)
  }

  ghost predicate SettledOk(p: Plan, s: State)
    requires Shape(p, s)
  {
    && (forall u :: 0 <= u < |p.g| ==> PassedOk(p, s, u))
    && (forall a {:trigger s.pcs[a]} :: 0 <= a <= |p.g| && s.pcs[a].Sweeping? ==> SweptTo(s, s.pcs[a].q))
    && (s.swept ==> SweptTo(s, |p.g|))
    && (forall i {:trigger s.skipped[i]} :: 0 <= i < |s.skipped| && Drained(s.skipRead, s.drain, i) ==>
          AllSettled(s, p.g[s.skipped[i]], 0, |p.g[s.skipped[i]]|))
    && (s.drain.Expand? ==> AllSettled(s, p.g[s.drain.u], 0, s.drain.k))
  }

  // ---- Fatal errors ----

  ghost predicate FailureOk(p: Plan, s: State, v: nat, e: PipelineError)
    requires Shape(p, s)
  {
    && v < |p.g|
    && (|| (s.nodes[v].outcome == Some(Err(e)) && FatalResult(p.optional[v], Err(e)))
        || (s.nodes[v].entered == 0 && s.nodes[v].status == Failed && e == JobFailed))
  }

  ghost predicate FatalOk(p: Plan, s: State)
    requires Shape(p, s)
  {
    && (s.fatal <==> s.failure.Some?)
    && (s.failure.Some? ==> FailureOk(p, s, s.failure.value.0, s.failure.value.1))
    && (s.skipped != [] ==> s.fatal)
    && (s.swept ==> s.fatal)
    && (forall a {:trigger s.pcs[a]} :: 0 <= a <= |p.g| && s.pcs[a].Sweeping? ==> s.fatal)
  }

  // ---- Counting ----

  function SumCounted(nodes: seq<Node>): nat {
    if nodes == [] then 0 else SumCounted(nodes[..|nodes| - 1]) + nodes[|nodes| - 1].counted
  }

  ghost predicate Inv(p: Plan, s: State) {
    && Shape(p, s)
    && LocalsOk(p, s)
    && EdgesOk(p, s)
    && HoldsOk(p, s)
    && OwnersOk(p, s)
    && WorklistOk(p, s)
    && SettledOk(p, s)
    && FatalOk(p, s)
    && s.completed == SumCounted(s.nodes)
  }
}
