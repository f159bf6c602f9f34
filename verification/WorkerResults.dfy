/** The reply to a request follows from the request: it is the same under every schedule. */
module WorkerResults {
  import opened Jobs
  import opened Graphs
  import opened Scheduler
  import opened SchedulerTheorems
  import opened Worker
  import opened WorkerReply
  import opened SchedulerRuns
  import WorkerRuns

  /** The entries that run() sends for jobs with these verdicts. */
  function Reply(vs: seq<Verdict>, exported: seq<bool>, out: Outlet, texts: Texts): (entries: seq<Entry>)
    requires |exported| == |vs|
    ensures |entries| == |vs|
  {
    seq(|vs|, v requires 0 <= v < |vs| => ReplyEntry(vs[v], false, exported[v], out, texts, v))
  }

  /** Job `v` makes the request fail. */
  predicate Fails(vs: seq<Verdict>, exported: seq<bool>, out: Outlet, v: nat)
    requires |exported| == |vs| && v < |vs|
  {
    Failure(Reported(vs[v])) || Unsent(vs[v], exported[v], out, v)
  }

  lemma EntryFails(vs: seq<Verdict>, exported: seq<bool>, out: Outlet, texts: Texts, v: nat)
    requires |exported| == |vs| && v < |vs|
    ensures Failure(Reply(vs, exported, out, texts)[v].status) <==> Fails(vs, exported, out, v)
  {
    hide ReplyEntry;
    EntryMeans(vs[v], false, exported[v], out, texts, v);
  }

  /** The first failure is the lowest job that failed itself or whose output could not travel. */
  lemma FirstFailureMeans(vs: seq<Verdict>, exported: seq<bool>, out: Outlet, texts: Texts, first: Option<nat>)
    requires |exported| == |vs| && IsFirstFailure(Reply(vs, exported, out, texts), first)
    ensures first.None? <==> forall v :: 0 <= v < |vs| ==> !Fails(vs, exported, out, v)
    ensures first.Some? ==>
      && first.value < |vs| && Fails(vs, exported, out, first.value)
      && forall v :: 0 <= v < first.value ==> !Fails(vs, exported, out, v)
  {
    hide Reply, Fails, Failure;
    forall v: nat | v < |vs|
      ensures Failure(Reply(vs, exported, out, texts)[v].status) <==> Fails(vs, exported, out, v)
    {
      EntryFails(vs, exported, out, texts, v);
    }
  }

  /** Two schedules of one request, however its jobs interleave, send the same reply and name the same first failure. */
  lemma RepliesAgree(w: Work, worlds: seq<WorkerRuns.World>, steps: seq<Step>,
                     others: seq<WorkerRuns.World>, otherSteps: seq<Step>,
                     exported: seq<bool>, out: Outlet, texts: Texts, first: Option<nat>, otherFirst: Option<nat>)
    requires WorkOk(w) && Acyclic(GraphOf(w)) && |exported| == w.n
    requires WorkerRuns.IsWorldRun(w, worlds, steps) && WorkerRuns.IsWorldRun(w, others, otherSteps)
    ensures var x, y := worlds[|worlds| - 1], others[|others| - 1];
      && Shape(WorkerRuns.PlanOf(w), x.s) && |x.s.nodes| == |x.cells| == w.n
      && Shape(WorkerRuns.PlanOf(w), y.s) && |y.s.nodes| == |y.cells| == w.n
      && (Quiescent(WorkerRuns.PlanOf(w), x.s) && Quiescent(WorkerRuns.PlanOf(w), y.s) ==>
            var a, b := Reply(WorkerRuns.Verdicts(x), exported, out, texts), Reply(WorkerRuns.Verdicts(y), exported, out, texts);
            && a == b
            && (IsFirstFailure(a, first) && IsFirstFailure(b, otherFirst) ==> first == otherFirst))
  {
    hide Shape, Quiescent, WorkerRuns.IsWorldRun, GraphOf, Consistent, Reply, IsFirstFailure;
    WorkerRuns.EveryScheduleGivesTheResults(w, worlds, steps);
    WorkerRuns.EveryScheduleGivesTheResults(w, others, otherSteps);
    WorkerRuns.SchedulesAgree(w, worlds, steps, others, otherSteps);
    WorkerRuns.RunNonEmpty(w, worlds, steps);
    WorkerRuns.RunNonEmpty(w, others, otherSteps);
    var x, y := worlds[|worlds| - 1], others[|others| - 1];
    if Quiescent(WorkerRuns.PlanOf(w), x.s) && Quiescent(WorkerRuns.PlanOf(w), y.s) {
      var a := Reply(WorkerRuns.Verdicts(x), exported, out, texts);
      if IsFirstFailure(a, first) && IsFirstFailure(a, otherFirst) { FirstFailureUnique(a, first, otherFirst); }
    }
  }

  // ---- What the coordinator makes of the reply ----

  /** What handleReply() tells the Completion of a request of `n` jobs. */
  function Told(entries: seq<Entry>, first: Option<nat>, n: nat): Result
    requires first.Some? ==> first.value < |entries|
  {
    match first
    case Some(k) =>
      Err(if entries[k].status == WasCancelled then Cancelled else if entries[k].status == TimedOut then Timeout
          else entries[k].error)
    case None => if |entries| != n then Err(JobFailed) else Ok
  }

  /** Job `k` is the lowest that makes the request fail. */
  ghost predicate LowestFailure(vs: seq<Verdict>, exported: seq<bool>, out: Outlet, k: nat)
    requires |exported| == |vs|
  {
    k < |vs| && Fails(vs, exported, out, k) && forall v :: 0 <= v < k ==> !Fails(vs, exported, out, v)
  }

  lemma FailureResult(w: Work, vs: seq<Verdict>, v: nat)
    requires WorkOk(w) && Consistent(w, vs) && v < w.n && Failure(Reported(vs[v]))
    ensures vs[v].result.Err? && vs[v].cell.code == vs[v].result.error && Reported(vs[v]) == StatusOf(vs[v].result)
  {
    hide Sources, Judge;
    SourcesInOrder(w.edges, v, Sources(w.edges, v));
    ConsistentMeans(w, vs, v, Sources(w.edges, v));
  }

  /** The remote job succeeds iff every job of the request is Done and every exported output could travel; otherwise it
      takes the failure of the lowest job that failed or could not send its output: that job's own error, or the error
      that kept the output. */
  lemma RemoteOutcome(w: Work, vs: seq<Verdict>, exported: seq<bool>, out: Outlet, texts: Texts, first: Option<nat>)
    requires WorkOk(w) && Acyclic(GraphOf(w)) && Consistent(w, vs) && |exported| == w.n
    requires IsFirstFailure(Reply(vs, exported, out, texts), first)
    ensures var r := Told(Reply(vs, exported, out, texts), first, w.n);
      && (r == Ok <==> forall v :: 0 <= v < w.n ==> Reported(vs[v]) == Done && !Unsent(vs[v], exported[v], out, v))
      && (r != Ok ==> first.Some? && LowestFailure(vs, exported, out, first.value))
      && (r != Ok && Failure(Reported(vs[first.value])) ==> r == vs[first.value].result)
      && (r != Ok && !Failure(Reported(vs[first.value])) ==>
            r == Err(if out.strategy && out.transfer(first.value).Refused? then out.transfer(first.value).error
                     else JobFailed))
  {
    hide GraphOf, Judge, WorkOk, ReplyEntry, Sources;
    FirstFailureMeans(vs, exported, out, texts, first);
    match first
    case None =>
      forall v | 0 <= v < w.n ensures !Failure(Reported(vs[v])) && !Unsent(vs[v], exported[v], out, v) {
        assert !Fails(vs, exported, out, v);
      }
      NoFailureMeansAllDone(w, vs);
    case Some(k) =>
      EntryMeans(vs[k], false, exported[k], out, texts, k);
      if Failure(Reported(vs[k])) { FailureResult(w, vs, k); }
  }
}
