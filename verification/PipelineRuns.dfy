/** Runs of a pipeline with deferred jobs as a whole: the scheduler's steps, the slots' moves and the thread that
    called run(), which submits the roots and then waits for the end. Every deferred job's agent and slot move
    together. An inline run calls its jobs on the waiting thread; letting them interleave only adds behaviours. */
module PipelineRuns {
  import opened Jobs
  import opened Graphs
  import opened Scheduler
  import opened SchedulerInvariant
  import opened SchedulerTheorems
  import SR = SchedulerRuns
  import D = Deferred
  import DR = DeferredRuns

  /** Where the calling thread of a threaded run stands. */
  datatype Wait =
    | Submitting   // hands over the roots, then is inside the first waitAll()
    | ZeroWait     // waits until nothing deferred is in flight
    | SecondWait   // inside the second waitAll()
    | Recheck      // about to look at the in-flight count again

  datatype World = World(
    s: State, d: DR.State, wait: Wait,
    drainer: nat,         // the agent whose claim started the skip loop that is under way
    // History:
    first: set<nat>,      // the nodes submitted by the time the first waitAll() returned
    settled: set<nat>,    // the deferred jobs started when the in-flight count was last seen at zero
    rounds: nat,          // how often the re-check of this run found something in flight
    threaded: bool,       // some run was threaded
    early: bool,          // some threaded run returned while its executor was not idle
    unfinished: bool)     // some threaded run returned while a job was not finished

  ghost function Created(p: Plan): World {
    World(Scheduler.Init(p), DR.Init(|p.g|), Submitting, 0, {}, {}, 0, false, false, false)
  }

  datatype Act =
    | OnSlot(i: nat, m: D.Move)
    | Await(i: nat)              // the body's thread finds the outcome open and publishes Awaiting
    | Agent(step: SR.Step)
    | BeginRun | StartRun(inline: bool)
    | FirstIdle                  // the first waitAll() returns
    | ZeroSeen
    | SecondIdle                 // the second waitAll() returns
    | RecheckFails
    | Return
    | EndInline | ReleaseNext

  predicate Active(w: World) { w.d.phase.Active? }
  predicate Threaded(w: World) { Active(w) && !w.d.inline }

  /** Agent `a` is inside the skip loop that its own claim started. */
  predicate Draining(w: World, a: nat) { !w.s.drain.NotDraining? && w.drainer == a }

  /** Agent `a` is under way. */
  predicate Acting(w: World, a: nat)
    requires a < |w.s.pcs|
  {
    (w.s.pcs[a] != Idle && w.s.pcs[a] != Ended) || Draining(w, a)
  }

  /** No job and no continuation on the executor has anything left to do but return: an agent still under way is a
      deferred job's whose body has arrived. */
  predicate JobsDone(p: Plan, w: World) {
    && DR.Idle(w.d)
    && forall a {:trigger w.s.pcs[a]} :: 0 <= a < |p.g| && a < |w.s.pcs| && Acting(w, a) ==>
         a < |p.deferred| && p.deferred[a] && a < |w.d.slots| && w.d.slots[a].body.Left?
  }

  /** And all of them have returned, which is what waitAll() waits for. */
  predicate ExecutorIdle(p: Plan, w: World) {
    JobsDone(p, w) && forall i {:trigger w.d.slots[i]} :: 0 <= i < |w.d.slots| ==> w.d.slots[i].leaving == 0
  }

  /** What a slot's move waits for in its agent: the claim before the body, finishJob() before the finish ends. */
  predicate SlotGuard(w: World, i: nat, m: D.Move)
    requires i < |w.s.pcs| && i < |w.d.slots|
  {
    && (m.Check? ==> w.s.pcs[i] == InBody)
    && (m.Look? ==> !w.d.slots[i].outcome.Undecided?)
    && (m.FinishJob? ==> w.s.pcs[i] == Ended && !Draining(w, i))
  }

  /** What a deferred job's agent waits for in its slot: finishJob() is called with the slot's result, or with the
      error of a job refused at its start. */
  predicate AgentGuard(x: D.Slot, c: Choice) {
    && !c.awaits
    && ((x.body.Refused? && c.r == Err(x.body.error))
        || (D.At(x, D.AtFinish) && c.r == x.result))
  }

  /** run() returns. What an early return leaves on the executor is not followed any further. */
  function Returned(p: Plan, w: World): World {
    w.(d := w.d.(phase := DR.Ending(0)), early := w.early || !ExecutorIdle(p, w),
       unfinished := w.unfinished || !JobsDone(p, w))
  }

  predicate SomeDeferred(p: Plan) { exists v :: 0 <= v < |p.deferred| && p.deferred[v] }

  function Submitted(p: Plan, s: State): set<nat> {
    set v: nat | v < |p.g| && v < |s.pcs| && s.pcs[v] != Idle
  }

  function StartedJobs(d: DR.State): set<nat> {
    set v: nat | v < |d.slots| && D.Started(d.slots[v])
  }

  function DrainerAfter(w: World, step: SR.Step): nat {
    if step.AgentStep? && w.s.drain.NotDraining? then step.a else w.drainer
  }

  ghost predicate Sized(p: Plan, w: World) {
    |w.d.slots| == |p.g| && |w.s.pcs| == |p.g| + 1 && |p.deferred| == |p.g|
  }

  ghost predicate Steps(p: Plan, w: World, act: Act, x: World) {
    && Sized(p, w)
    && match act
       case OnSlot(i, m) =>
         && DR.Enabled(w.d, DR.OnSlot(i, m)) && (m.Check? ==> p.deferred[i])
         && (Active(w) ==> SlotGuard(w, i, m))
         && x == w.(d := DR.Step(w.d, DR.OnSlot(i, m)))
       case Await(i) =>
         && Active(w) && DR.Enabled(w.d, DR.OnSlot(i, D.Look)) && w.d.slots[i].outcome.Undecided?
         && w.s.pcs[i] == InBody && i < |w.s.nodes|
         && x == w.(d := DR.Step(w.d, DR.OnSlot(i, D.Look)), s := Move(SetStatus(w.s, i, Awaiting), i, Waiting))
       case Agent(step) =>
         && Active(w) && Shape(p, w.s) && SR.Enabled(p, w.s, step) && SR.Steps(p, w.s, step, x.s)
         && x == w.(s := x.s, drainer := DrainerAfter(w, step))
         && (step.AgentStep? ==> !Draining(w, step.a) && (w.d.inline ==> step.c.accepts))
         && (step.AgentStep? && step.a < |p.g| && p.deferred[step.a] && w.s.pcs[step.a] in {InBody, Waiting} ==>
               AgentGuard(w.d.slots[step.a], step.c))
       case BeginRun => DR.Enabled(w.d, DR.BeginRun) && x == w.(d := DR.Step(w.d, DR.BeginRun))
       case StartRun(inline) =>
         && DR.Enabled(w.d, DR.StartRun(inline))
         && x == World(Scheduler.Init(p), DR.Step(w.d, DR.StartRun(inline)), Submitting, 0, {}, {}, 0,
                       w.threaded || !inline, w.early, w.unfinished)
       case FirstIdle =>
         && Threaded(w) && w.wait.Submitting? && !Acting(w, |p.g|) && ExecutorIdle(p, w)
         && x == if SomeDeferred(p) then w.(wait := ZeroWait, first := Submitted(p, w.s)) else Returned(p, w)
       case ZeroSeen =>
         && Threaded(w) && w.wait.ZeroWait? && w.d.inFlight == 0
         && x == w.(wait := SecondWait, settled := StartedJobs(w.d))
       case SecondIdle => Threaded(w) && w.wait.SecondWait? && ExecutorIdle(p, w) && x == w.(wait := Recheck)
       case RecheckFails =>
         && Threaded(w) && w.wait.Recheck? && w.d.inFlight != 0
         && x == w.(wait := ZeroWait, rounds := w.rounds + 1)
       case Return => Threaded(w) && w.wait.Recheck? && w.d.inFlight == 0 && x == Returned(p, w)
       case EndInline =>
         && w.d.inline && DR.Enabled(w.d, DR.EndRun) && JobsDone(p, w) && !Acting(w, |p.g|)
         && x == w.(d := DR.Step(w.d, DR.EndRun))
       case ReleaseNext => DR.Enabled(w.d, DR.ReleaseNext) && x == w.(d := DR.Step(w.d, DR.ReleaseNext))
  }

  ghost predicate Next(p: Plan, w: World, x: World) {
    exists act :: Steps(p, w, act, x)
  }

  /** The states of a pipeline over any number of runs, threaded or inline. */
  ghost predicate IsHistory(p: Plan, worlds: seq<World>) {
    && |worlds| > 0 && worlds[0] == Created(p)
    && forall k :: 0 <= k < |worlds| - 1 ==> Next(p, worlds[k], worlds[k + 1])
  }

  /** Some history leads to `w`. */
  ghost predicate Occurs(p: Plan, w: World) {
    exists worlds :: IsHistory(p, worlds) && worlds[|worlds| - 1] == w
  }

  // ---- The conditions on the graph ----

  /** Some deferred job leads to `v`. */
  ghost predicate BelowDeferred(p: Plan, v: nat) {
    exists path :: IsPath(p.g, path) && |path| > 1 && path[|path| - 1] == v && path[0] < |p.deferred| && p.deferred[path[0]]
  }

  /** No source that run() never starts leads to `v`. */
  ghost predicate Startable(p: Plan, v: nat) {
    forall o: nat :: Graphs.Reaches(p.g, o, v) ==> !OnDemandSource(p, o)
  }

  /** A deferred job below another deferred job has a successor that can be started. */
  ghost predicate Risky(p: Plan) {
    exists u: nat, v: nat ::
      u < |p.g| && u < |p.deferred| && p.deferred[u] && BelowDeferred(p, u) && IsEdge(p.g, u, v) && Startable(p, v)
  }

  /** A deferred job that can be started lies below another deferred job. */
  ghost predicate Chained(p: Plan) {
    exists u: nat :: u < |p.g| && u < |p.deferred| && p.deferred[u] && BelowDeferred(p, u) && Startable(p, u)
  }

  lemma BelowNext(p: Plan, u: nat, v: nat)
    requires ValidPlan(p) && IsEdge(p.g, u, v) && (p.deferred[u] || BelowDeferred(p, u))
    ensures BelowDeferred(p, v)
  {
    var e :| 0 <= e < |p.g[u]| && p.g[u][e] == v;
    if BelowDeferred(p, u) {
      var path :| IsPath(p.g, path) && |path| > 1 && path[|path| - 1] == u && path[0] < |p.deferred| && p.deferred[path[0]];
      assert IsPath(p.g, path + [v]);
      assert (path + [v])[0] == path[0] && (path + [v])[|path|] == v;
    } else {
      assert IsPath(p.g, [u, v]);
      assert [u, v][0] == u && [u, v][1] == v;
    }
  }

  lemma ReachesNext(g: Graph, o: nat, u: nat, v: nat)
    requires WellFormed(g) && Graphs.Reaches(g, o, u) && IsEdge(g, u, v)
    ensures Graphs.Reaches(g, o, v)
  {
    var path :| IsPath(g, path) && path[0] == o && path[|path| - 1] == u;
    var e :| 0 <= e < |g[u]| && g[u][e] == v;
    assert IsPath(g, path + [v]);
    assert (path + [v])[0] == o && (path + [v])[|path|] == v;
  }

  lemma StartableSource(p: Plan, u: nat, v: nat)
    requires ValidPlan(p) && Startable(p, v) && IsEdge(p.g, u, v)
    ensures Startable(p, u)
  {
    hide OnDemandSource, Graphs.Reaches;
    forall o: nat | Graphs.Reaches(p.g, o, u) ensures !OnDemandSource(p, o) {
      ReachesNext(p.g, o, u, v);
    }
  }

  // ---- A deferred job's agent and its slot ----

  /** finishJob() has begun. */
  predicate AfterBody(pc: Pc) {
    pc != Idle && pc != Queued && pc != Claiming && pc != InBody && pc != Waiting
  }

  /** An agent inside its skip loop has left its body, and its slot waits for finishJob() to return. */
  predicate Linked(deferred: bool, draining: bool, pc: Pc, x: D.Slot) {
    && (draining ==> AfterBody(pc)) && (x.leaving > 0 ==> x.body.Left?)
    && if !deferred then x.body.Waiting? && pc != Waiting
       else match x.body
         case Waiting => pc == Idle || pc == Queued || pc == Claiming || pc == InBody || pc == Ended
         case Refused(_) => pc == InBody || AfterBody(pc)
         case Arriving => pc == InBody || pc == Waiting
         case Left =>
           if x.finish.Finished? || D.At(x, D.AtUncount) then pc == Ended && !draining
           else if D.At(x, D.AtFinish) then pc == InBody || pc == Waiting || AfterBody(pc)
           else pc == InBody || pc == Waiting
         case _ => pc == InBody
  }

  ghost predicate LinksOk(p: Plan, w: World) {
    && Sized(p, w) && (!w.s.drain.NotDraining? ==> w.drainer <= |p.g|)
    && forall v {:trigger w.s.pcs[v]} {:trigger w.d.slots[v]} :: 0 <= v < |p.g| ==>
         Linked(p.deferred[v], Draining(w, v), w.s.pcs[v], w.d.slots[v])
  }

  ghost predicate OnDemandIdle(p: Plan, s: State) {
    forall o {:trigger s.pcs[o]} :: 0 <= o < |p.g| && o < |s.pcs| && OnDemandSource(p, o) ==> s.pcs[o] == Idle
  }

  /** What the calling thread can rely on, by how far it has come. */
  ghost predicate WaitOk(p: Plan, w: World)
    requires Sized(p, w)
  {
    && (w.wait.Submitting? ==> w.settled == {} && w.rounds == 0)
    && (!w.wait.Submitting? ==>
          && !Acting(w, |p.g|) && w.s.pcs[|p.g|] == Ended
          && (forall v {:trigger w.s.pcs[v]} :: 0 <= v < |p.g| ==>
                NodeWaitOk(p, w.wait, v, v in w.first, v in w.settled, Acting(w, v), w.s.pcs[v], w.d.slots[v])))
    && w.settled <= StartedJobs(w.d)
    && w.rounds <= if w.wait.ZeroWait? then |StartedJobs(w.d)| else |w.settled|
  }

  ghost predicate NodeWaitOk(p: Plan, wait: Wait, v: nat, first: bool, settled: bool, busy: bool, pc: Pc, x: D.Slot)
    requires v < |p.deferred|
  {
    && (!first && pc != Idle ==> BelowDeferred(p, v) && Startable(p, v))
    && (first ==> (pc == Ended && !busy) || (wait.ZeroWait? && p.deferred[v] && D.Started(x)))
    && (settled ==> x.finish.Finished? && D.InFlight(x) == 0)
    && (first && !wait.ZeroWait? && D.Started(x) ==> settled)
    && (wait.Recheck? && settled ==> x.leaving == 0)
    && (wait.Recheck? && !Risky(p) && busy ==> p.deferred[v] && D.Started(x))
  }

  /** Nothing uses the slot of a job that is not deferred. */
  ghost predicate Unused(p: Plan, d: DR.State) {
    forall v {:trigger d.slots[v]} :: 0 <= v < |d.slots| && v < |p.deferred| && !p.deferred[v] ==> d.slots[v].body.Waiting?
  }

  /** Until a threaded run returns with a job unfinished, the slots keep what their own protocol gives them, and during
      a run agents, slots and the calling thread agree. */
  ghost predicate WorldOk(p: Plan, w: World) {
    && ValidPlan(p) && |w.d.slots| == |p.g|
    && (w.unfinished ==> Risky(p) && w.threaded)
    && (w.early ==> Chained(p) && w.threaded)
    && (!w.unfinished ==> DR.Inv(w.d) && Unused(p, w.d))
    && (!w.unfinished && Active(w) ==> Inv(p, w.s) && OnDemandIdle(p, w.s) && LinksOk(p, w))
    && (!w.unfinished && Threaded(w) ==> w.threaded && WaitOk(p, w))
  }
}
