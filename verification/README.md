# Sub0Pipeline in Dafny

A model of Sub0Pipeline's DAG scheduler and of its remote execution layer, with proofs of what they promise over
every graph, every interleaving and every history. `dafny verify dfyconfig.toml` checks the whole project.

## What is modelled

**The threaded run** (`Scheduler*.dfy`). One agent per node acts from the moment the executor accepts it; agent
`|g|` is the thread that called `run()`, whose out-edges are the roots. Every atomic operation is one step: the
read of the fatal flag, the exchange of Ready for Running, the status store, one successor edge, one skip claim,
one turn of the worklist loop. Job bodies and the executor's acceptance are choices of the environment. Atomic
operations are sequentially consistent. Four steps are coarser or freer than the code: the loop that drains the
skip worklist is an agent of its own (in the code it runs on the thread whose claim started it, under a mutex, so
this only adds behaviours); raising `completedCount_` is joined to the status store, because no step reads it;
reading the fatal flag set and skipping are one step, because the flag never falls; and an awaiting deferred job is
a body that returns later. `SchedulerInvariant` holds the inductive invariant in nine groups, `SchedulerTheorems`
what follows in every reachable state and at quiescence, `SchedulerFatal` what a recorded failure stops,
`SchedulerTermination` that every run ends.

**Deferred jobs** (`Deferred*.dfy`). One slot per job over any number of runs. The body, the `Completion`, the stop
callback, the timer, `deliverDeferred()` and `finishDeferred()` each have a control point, and every access to the
slot, the in-flight count or the ledger is one move. `orphanIfHeld()` is two moves under the ledger's lock. The
comment at `src/sub0pipeline.cpp:321-322` says the orphan count rises before the flag is visible; the code sets
the flag first and raises the count after, both under the lock, and the model follows the code: the count cannot
go negative because recording a release needs that lock. An arming that fails, a refusing executor, a stop that
comes before the registration and a `Completion` that outlives its run are all included. `DeferredStops` says which
of signal, stop and deadline decides a job's result over a whole run. In this protocol a run ends
when no body and no continuation has anything left to do but return; what that takes is derived from the code next.

**Whole runs** (`Pipeline*.dfy`). The scheduler, the slots and the thread that called `run()` together. A threaded run
submits the roots, its first `waitAll()` returns, it waits for a zero in-flight count, its second `waitAll()` returns,
and it looks at the count again; an inline run ends when its own thread finds nothing in flight and nothing to drain.
`waitAll()` is what `include/sub0pipeline/executor/executor.hpp:27-28` says: it returns only when every callable has
returned, so a callable stays on the executor after its job's last decrement until it leaves. A deferred job's check,
its look at the outcome and the two ends of its finish move with its agent in the scheduler, and a thread that started
the skip loop does nothing else until the loop is over. Two conditions on the graph are proved exact, the histories
that show it being built for every such graph: a threaded run can return while its executor is not idle iff a startable
deferred job lies below another deferred job, and it can return with a job unfinished iff such a job has a successor
that can be started. Otherwise every run, inline or threaded, ends as the slots' own protocol says, so everything
proved about the protocol holds, and its scheduler has come to rest. No run gets stuck, the number of times a
threaded run goes round its re-check is bounded, and what the scheduler is told of a deferred job is what the slot's
protocol decided (`PipelineResults`).

**The inline run** (`InlineRuns.dfy`) and **the graph** (`Graphs`, `Kahn`, `Arena`, `Build`). The run on the calling
thread is a class with the code's loops and a full specification in terms of the order Kahn's algorithm visits.
`Build.Pipeline` stores successor lists packed in one arena of 16-bit entries, keeps predecessor counts and the
cached roots, and validates. A block's start is kept in 32 bits: `Arena.Overflows` is the exact condition under which
a push loses its list, and `Build.StartsFit` shows that it takes more than 2^30 edges.

**Shared memory** (`Layout.dfy`, `SharedMemory.dfy`). The free list, blocks, addresses and scopes of one side as a
class whose methods keep the partition of the region, the accounting, and the match between peer holds and scopes.

**The channel** (`Channel*.dfy`). Calls of any number of threads, each lock-protected section and each completion one
step; what frames, stop requests and closing do is chosen by the environment. A call may hold completions in hand
between two locks, and hand a queued request over outside the lock. `ChannelEnds` gives the reason for every end.

**The worker** (`Worker*.dfy`). The scheduler's steps with each body doing what the worker's body does to shared
cells; the recursive definition of a request's results; the arrays filled in place and the reply built from them;
that the reply and its first failure are the same under every schedule; and what the coordinator's job makes of them.

**Payloads and frames** (`Stream*.dfy`, `Wire*.dfy`, `FrameReaders.dfy`, `LittleEndian.dfy`). The chunking and
reassembly of streamed payloads, the encoder and decoder of every frame as loops over a writer and a reader,
proved against functions over bytes; which frames decode, exactly (`WireDecoding`), and the format byte by byte
(`WireFormat`); and the splitter of byte streams into frames. `docs/design/cross-process-orchestration.md:404` says
that bit 0 of a job's flags means exported; the decoder takes any byte but 0, and the model follows the code.

Methods that change state are specified by functions of the old state; the lemmas below are about those functions
and about every run. Job kinds, clocks, stop requests, transports and executors are parameters or choices.

## Model

| member | source | states |
|---|---|---|
| SchedulerRuns.StepKeeps | src/sub0pipeline.cpp:1172-1341 | every atomic action of a threaded run - fatal check, claim, status store, one successor edge, one skip claim, one drain turn, one rejection step - keeps the whole invariant |
| SchedulerRuns.InitHolds | src/sub0pipeline.cpp:1117-1127 | the statuses and dependency counts a run starts from satisfy the invariant |
| SchedulerRuns.RunInv | src/sub0pipeline.cpp:1248-1341 | every state of every interleaving satisfies the invariant |
| SchedulerTheorems.UnmetCountsOpenEdges | src/sub0pipeline.cpp:1321-1323 | the dependency counter of a node is exactly its in-edges, with multiplicity, that no finished predecessor has consumed; no decrement finds it at zero |
| SchedulerTheorems.EnteredOnceAfterPredecessors | src/sub0pipeline.cpp:1248-1256 | no body is entered twice, and none before every predecessor ended Done, or was optional and ended Failed or TimedOut |
| SchedulerTheorems.ConsumedPredecessor | src/sub0pipeline.cpp:1312-1326 | an entered job's predecessor ran once, and its stored result lets dependents proceed |
| SchedulerTheorems.NothingRunsBelow | src/sub0pipeline.cpp:1302-1319 | nothing on any path below a node that was skipped, rejected or failed fatally was ever entered |
| SchedulerTheorems.SkippedOnce | src/sub0pipeline.cpp:1204-1246 | the skip worklist holds exactly the Skipped nodes, each once, within its reservation, and only after a fatal error |
| SchedulerTheorems.EnabledCanStep | src/sub0pipeline.cpp:1248-1341 | no agent gets stuck: whoever is enabled has a step to take |
| SchedulerTheorems.QuiescentStatus | src/sub0pipeline.cpp:1206-1246 | when nothing can move, a node is terminal, or Pending because a predecessor is, or an on-demand source |
| SchedulerTheorems.PendingPredecessor | src/sub0pipeline.cpp:1314-1338 | at quiescence a Pending node that is not an on-demand source has a Pending predecessor |
| SchedulerTheorems.QuiescentRunIsComplete | src/sub0pipeline.cpp:1196-1246 | at quiescence every node that no on-demand source leads to is terminal; each terminal node was counted exactly once, and the completed count is their number |
| SchedulerTheorems.RunResultTheorem | src/sub0pipeline.cpp:1578-1584 | at quiescence the run returns success iff every terminal node ended harmlessly, and then nothing is Skipped or Cancelled; otherwise the error is that of a node which failed fatally or was rejected |
| SchedulerTheorems.QuiescentCulprit | src/sub0pipeline.cpp:1172-1203 | the recorded failure names a terminal node that really failed fatally or was rejected before it started |
| SchedulerTheorems.QuiescentHarmless | src/sub0pipeline.cpp:1302-1319 | without a fatal error every terminal node ran and did no harm |
| SchedulerTermination.RunsAreBounded | src/sub0pipeline.cpp:1221-1341 | every interleaving is finite: its length is bounded by a measure of the graph |
| SchedulerFatal.NothingStartsAfterFailure | src/sub0pipeline.cpp:1248-1256 | over every run: once a failure is recorded, a job whose agent was not accepted, or has not read the fatal flag, is never entered; only one that had passed the check may still start |
| SchedulerFatal.NothingHandedOverAfterFailure | src/sub0pipeline.cpp:1312-1338 | over every run: once a failure is recorded, an agent that is not between its own check and a hand-over counts no successor down, makes none ready and submits none again |
| SchedulerFatal.FirstFailureStands | src/sub0pipeline.cpp:1172-1181 | over every run: the first recorded failure and the fatal flag never change again |
| PipelineResults.StatusMeans | src/sub0pipeline.cpp:1248-1341 | in every reachable state a status tells the truth: before Running no body was entered; a final status is that of the body's result, or Failed for a refused submission; a stored result always shows |
| PipelineResults.OnDemandNeverRuns | src/sub0pipeline.cpp:1104-1127 | a source that is on demand is never handed to the executor, and nothing below it is ever entered |
| Jobs.StatusOf | src/sub0pipeline.cpp:66-75 | Done iff the result is no error, Cancelled iff it is the cancellation, TimedOut iff it is the timeout, Failed for every other error |
| Jobs.FatalResult | src/sub0pipeline.cpp:1302-1302 | any cancellation is fatal; any other error is fatal iff the job is not optional |
| Deferred.MoveKeeps | src/sub0pipeline.cpp:284-344 | every move of the body, the Completion, the stop callback, the timer, the delivery and the finisher keeps a slot's invariant: two arrivals, one winner, one finish, orphan flags |
| Deferred.SharesMove | src/sub0pipeline.cpp:1399-1467 | a move changes what the slot adds to the in-flight count and to the ledger exactly as it changes those counters |
| DeferredRuns.StepKeeps | src/sub0pipeline.cpp:1369-1485 | every step of any slot, and the start and end of runs that end with nothing left to do, keep the invariant over all slots, counters, the ledger lock and the list of jobs to drain |
| DeferredRuns.JoinedMeansReleased | src/sub0pipeline.cpp:1096-1099 | once a run's join of orphans has read zero, no slot is an orphan with an unrecorded release |
| DeferredTheorems.HistoryInv | src/sub0pipeline.cpp:1096-1485 | every state of every sequence of runs, each ending with nothing left to do, satisfies the invariant |
| DeferredTheorems.DecidedOnce | src/sub0pipeline.cpp:284-306 | a started job's outcome, who decided it and, once the winner has arrived, its result are changed by no step of any party |
| DeferredTheorems.FinishedOnce | src/sub0pipeline.cpp:1414-1467 | the job is finished at most once, only after its body returned and the outcome's winner arrived: with the timeout error if the deadline had expired when the winner wrote, otherwise with the value the Completion was signalled with, or the cancellation if a stop won |
| DeferredTheorems.InFlightCounts | src/sub0pipeline.cpp:1399-1467 | the in-flight count equals the jobs started and not finished plus the foreign dispatches in progress |
| DeferredTheorems.EndedRunIsComplete | src/sub0pipeline.cpp:1471-1501 | a run that ends with no body and no continuation under way has finished every job it started exactly once, no delivery is in progress and nothing is left to drain |
| DeferredTheorems.AwaitedFits | src/sub0pipeline.cpp:1132-1138 | the list of jobs to drain never holds a job twice, so it stays within its reservation |
| DeferredTheorems.LedgerCounts | src/sub0pipeline.cpp:223-243 | over such runs: with the ledger lock free the orphan count is the number of slots marked orphaned whose release is not recorded; inside orphanIfHeld() it is one less; it is never negative |
| DeferredTheorems.ResetIsSafe | src/sub0pipeline.cpp:1377-1386 | over such runs: when a body resets its slot, no Completion of an earlier run can touch it, no stop callback or timer is registered on it, and nobody is finishing it |
| DeferredTheorems.NeverStuck | src/sub0pipeline.cpp:306-345 | a started unfinished job that waits neither for its body nor for its Completion always leaves some party able to move |
| DeferredTheorems.JobsSettle | src/sub0pipeline.cpp:1369-1469 | moves that need nothing from outside come to an end, within a bound; when none is left every started job is finished, or waits for its body or its Completion and, unless its outcome is decided, no stop was requested and no deadline has expired |
| DeferredStops.ExpiryFirstOwnsTheResult | src/sub0pipeline.cpp:284-306 | over every history: if the deadline expires before the winner has written, the job finishes with the timeout error whoever wins; if the winner wrote before any expiry, with the winner's own result |
| DeferredStops.TheSignalIsReported | src/sub0pipeline.cpp:284-297 | over every history: the value a winning Completion reports is the one it was signalled with in that run |
| DeferredStops.StopBeforeTheBody | src/sub0pipeline.cpp:1369-1405 | over every history: a job stopped before its body looks for the stop is refused with Cancelled and never starts in that run; one stopped before it registers has been decided by the stop when its body is called |
| DeferredStops.DeadlineKept | src/sub0pipeline.cpp:1386-1398 | over every history: a job whose deadline cannot be armed is refused with DeadlineUnavailable and never starts; an armed deadline runs or has expired as long as the job does not finish; without a deadline no job times out of itself |
| DeferredStops.StopHasACause | src/sub0pipeline.cpp:1120-1127 | no stop outlives its run: a job that is asked to stop in a run was asked in that run, by a request or by its own deadline |
| PipelineSafety.StepKeeps | src/sub0pipeline.cpp:1248-1576 | every step of agents, slots, the skip loop and the calling thread keeps the joint invariant: a deferred job's slot and its agent agree, what was submitted after the first waitAll() lies below a deferred job, and no run has returned early against the two conditions on the graph |
| PipelineSafety.HistoryOk | src/sub0pipeline.cpp:1084-1576 | so every state of every history of threaded and inline runs satisfies it |
| PipelineSafety.RecheckDone | src/sub0pipeline.cpp:1489-1501 | unless a deferred job below another deferred job has a successor that can be started, every job is done whenever the re-check finds nothing in flight |
| PipelineSafety.RecheckIdle | src/sub0pipeline.cpp:1489-1501 | unless a startable deferred job lies below another deferred job, every callable has left the executor whenever the re-check finds nothing in flight |
| PipelineTheorems.EarlyReturnIffChained | src/sub0pipeline.cpp:1489-1501 | some threaded run can return while a callable has not returned to its executor if and only if a deferred job that can be started lies below another deferred job |
| PipelineTheorems.UnfinishedReturnIffRisky | src/sub0pipeline.cpp:1489-1501 | some threaded run can return with a job unfinished if and only if a deferred job below another deferred job has a successor that can be started |
| PipelineTheorems.OnlyWhen | src/sub0pipeline.cpp:1571-1576 | no run of any other graph does either, and no inline run does |
| PipelineTheorems.PartsKeepToProtocol | src/sub0pipeline.cpp:1096-1576 | until some run leaves a job unfinished, the slots have gone through a history of their own protocol and the active run's scheduler, inline or threaded, through one of its own runs |
| PipelineTheorems.ResetIsSafe | src/sub0pipeline.cpp:1377-1386 | until some run leaves a job unfinished: when a body resets its slot, no Completion of an earlier run can touch it, no stop callback or timer is registered on it, and nobody is finishing it |
| PipelineTheorems.LedgerCounts | src/sub0pipeline.cpp:223-243 | until some run leaves a job unfinished: the orphan count is the number of slots marked orphaned whose release is not recorded, one less inside orphanIfHeld(), never negative |
| PipelineTheorems.EndedRunIsComplete | src/sub0pipeline.cpp:1526-1585 | a run that ends, inline or threaded, and leaves no job unfinished has finished every deferred job it started exactly once, with nothing in flight; no step of its scheduler is enabled, the skip loop included, and every node that no on-demand source leads to is terminal |
| PipelineProgress.NeverStuck | src/sub0pipeline.cpp:1248-1576 | no run gets stuck: while no body runs and no deferred job awaits its Completion, some agent, slot or the calling thread has a step to take, up to the return |
| PipelineProgress.RoundsBounded | src/sub0pipeline.cpp:1489-1501 | a threaded run's re-check finds something in flight at most once for each deferred job |
| PipelineResults.DeferredOutcome | src/sub0pipeline.cpp:1369-1469 | until some run leaves a job unfinished: what the scheduler is told of a deferred job is what its protocol decided - the refusal's error, the timeout if the deadline came first, the signalled value, or the cancellation for a stop - and it is shown as Awaiting only once its body has returned |
| PipelineCallables.CallablesCount | src/sub0pipeline.cpp:1369-1485 | no callable of a deferred job is lost or invented: each move changes their number by the one that passes its check, the accepted dispatch, or the return |
| PipelineCallables.IdleMeansNone | src/sub0pipeline.cpp:1489-1501 | what waitAll() waits for is that none of a deferred job's callables is left on the executor |
| InlineRuns.FirstFatal | src/sub0pipeline.cpp:1302-1302 | the index of the first job of an order whose result is fatal |
| InlineRuns.FirstFatalUnique | src/sub0pipeline.cpp:1302-1302 | that index is the only one with no fatal job before it and a fatal job at it |
| InlineRuns.InlineRun.EnqueueSkip | src/sub0pipeline.cpp:1206-1219 | claims a node that has not started, once, and unsettles nobody |
| InlineRuns.InlineRun.SkipNode | src/sub0pipeline.cpp:1221-1246 | claims a node and everything below it and counts each exactly once, leaving the worklist drained |
| InlineRuns.InlineRun.PassEdge | src/sub0pipeline.cpp:1314-1332 | one passed edge takes the run one edge further through exactly what validation visits |
| InlineRuns.InlineRun.DispatchJob | src/sub0pipeline.cpp:1248-1341 | one worklist entry: a calm run stays calm or contains the failure; a failed run only skips |
| InlineRuns.InlineRun.Run | src/sub0pipeline.cpp:1526-1540 | bodies run in precisely validation order up to and including the first fatal job; every later node ends Skipped, all nodes are counted, and the returned error and failure name are that job's |
| InlineRuns.RootsAreZeros | src/sub0pipeline.cpp:1108-1114 | without on-demand nodes the roots are the nodes validation starts from, in the same order |
| InlineRuns.InlineRun.SkippedIsRest | src/sub0pipeline.cpp:1221-1246 | after a fatal job the skip worklist holds exactly the nodes outside the visited part, each once, and they are Skipped |
| Kahn.ExhaustedTheorem | src/sub0pipeline.cpp:1054-1068 | a worklist that has been visited to its end holds all nodes iff the multigraph is acyclic, and is then a duplicate-free topological order |
| Kahn.OrderTheorem | src/sub0pipeline.cpp:1030-1069 | the order validation computes is topological exactly when the graph is acyclic, and incomplete otherwise |
| Kahn.TopologicalAcyclic | src/sub0pipeline.cpp:1066-1068 | a graph with a topological order has no cycle |
| Kahn.FindCycle | src/sub0pipeline.cpp:1066-1067 | when not all nodes are visited there is a cycle to exhibit |
| Build.Pipeline.Validate | src/sub0pipeline.cpp:1030-1069 | validate() succeeds iff the edge multigraph is acyclic, its worklist then being a topological order of all nodes |
| Build.Pipeline.CountDegrees | src/sub0pipeline.cpp:1044-1048 | walking the packed lists counts every node's in-degree with multiplicity |
| Build.Pipeline.VisitNode | src/sub0pipeline.cpp:1055-1063 | visiting one entry consumes all its edges and lists each node whose last edge went |
| Build.Pipeline.PrepareRoots | src/sub0pipeline.cpp:1104-1115 | a run refuses exactly cyclic graphs; otherwise the cached roots equal recomputation |
| Build.Pipeline.CollectRoots | src/sub0pipeline.cpp:1107-1113 | the roots are the nodes without predecessors that are not on-demand, in index order |
| Build.Pipeline.AddNode | src/sub0pipeline.cpp:611-621 | appends a node without edges and drops the cached roots; the 65537th is refused and changes nothing |
| Build.Pipeline.AddEdge | src/sub0pipeline.cpp:890-911 | adds exactly one edge and keeps every predecessor count equal to the in-degree; a full list refuses and leaves lists and counts alone; exactly when a new block starts beyond 2^32 entries the list is recorded in the wrong place |
| Build.Pipeline.Succeed | src/sub0pipeline.cpp:890-900 | self becomes a successor of other, unless the list overflows the arena or is full; invalid handles change nothing |
| Build.Pipeline.Precede | src/sub0pipeline.cpp:902-911 | other becomes a successor of self, unless the list overflows the arena or is full; invalid handles change nothing |
| Build.InDegreeAddEdge | src/sub0pipeline.cpp:897-898 | one more edge raises its target's in-degree by one and no other |
| Arena.PushBack | src/sub0pipeline.cpp:140-183 | unless a new block's start overflows, a push adds exactly its entry through inline, spill, in-place growth and relocation, writes nowhere outside its own block, accounts for the arena's growth and the block left behind; if it overflows, the block is recorded at its start modulo 2^32; the 32768th push is rejected and changes nothing |
| Arena.StartTruncated | src/sub0pipeline.cpp:206-211 | every block start reads back modulo 2^32, so unchanged exactly below 2^32 |
| Build.PushPacked | src/sub0pipeline.cpp:140-183 | after a push to one of any number of lists in the arena every list reads back its own pushes, live blocks stay disjoint, and what a list abandoned is less than its live block |
| Build.ArenaBound | src/sub0pipeline.cpp:104-107 | once any list has spilled, the arena holds fewer than four entries per stored edge |
| Build.StartsFit | src/sub0pipeline.cpp:202-211 | up to 2^30 edges every block start fits the split encoding |
| SharedMemory.State.constructor | src/remote/shared_memory.cpp:110-114 | the region starts as one free extent of its size rounded down to 64 bytes |
| SharedMemory.State.AllocateBlock | src/remote/shared_memory.cpp:117-134 | fails iff there is no region or nowhere a gap free of live blocks holds the least multiple of 64 that is at least the size and at least 64; otherwise takes exactly that many bytes at the lowest such gap and keeps the partition |
| SharedMemory.State.FirstFit | src/remote/shared_memory.cpp:121-124 | the scan finds the lowest free extent that is large enough, or shows there is none |
| SharedMemory.State.ReleaseIfUnused | src/remote/shared_memory.cpp:137-161 | removes the block iff nothing holds it; free extents and live blocks still partition the aligned region, coalesced, and inUse is the sum of live sizes |
| SharedMemory.State.GiveExtent | src/remote/shared_memory.cpp:145-160 | returns an extent and merges it with both neighbours, so no two free extents touch |
| SharedMemory.State.DropLocal | src/remote/shared_memory.cpp:163-171 | lowers exactly one local hold, keeps every hold of the peer, frees only what nobody holds |
| SharedMemory.State.DropPeerHold | src/remote/shared_memory.cpp:173-180 | lowers exactly one peer hold, keeps every local hold |
| SharedMemory.State.Send | src/remote/shared_memory.cpp:287-324 | an in-place buffer is reused, otherwise a gap of the least multiple of 64 that holds the payload, otherwise the stream, exactly when there is no such gap; the block gains one peer hold, recorded in the scope on the coordinator; no held block moves |
| SharedMemory.State.OnReleaseFrame | src/remote/shared_memory.cpp:348-357 | drops one peer hold; on a coordinator the match between holds and scopes survives iff the block named had no peer hold |
| SharedMemory.StrayRelease | src/remote/shared_memory.cpp:348-357 | a coordinator in which one release frame has broken the match: the block's hold is gone, its scope still counts it |
| SharedMemory.State.Allocate | src/remote/shared_memory.cpp:369-383 | a new block of the least multiple of 64 that holds the size, with one local hold, found by its address; fails iff the size is zero, there is no region or no such gap |
| SharedMemory.FitsOnly | src/remote/shared_memory.cpp:120-120 | the size a block takes is determined: the least multiple of 64 that is at least the size and at least 64 |
| SharedMemory.State.EndScope | src/remote/shared_memory.cpp:359-367 | drops the scope's holds with multiplicity, so each block's peer holds stay its uses over the open scopes; the region stays |
| SharedMemory.State.OnClosed | src/remote/shared_memory.cpp:385-406 | leaves exactly the locally held blocks, without peer holds or scopes; the region stays |
| SharedMemory.State.Detach | src/remote/shared_memory.cpp:228-234 | the strategy lets go of its region; holds and layout stay as they are |
| Layout.AllocateKeeps | src/remote/shared_memory.cpp:122-132 | cutting a block out of a free extent keeps partition, alignment and coalescing |
| Layout.GapInOneExtent | src/remote/shared_memory.cpp:122-125 | a gap between live blocks lies inside one free extent, so first fit misses none |
| Layout.EmptyIsWhole | src/remote/shared_memory.cpp:110-114 | with no live blocks the free list is the single whole extent |
| Channel.StepKeeps | src/remote/channel.cpp:152-465 | every lock-protected section and hand-over of any number of calls keeps conservation, limits and the no-stranding invariant |
| Channel.AdmitKeeps | src/remote/channel.cpp:154-195 | send() under the lock: refuse, queue or register |
| Channel.RemoveKeeps | src/remote/channel.cpp:240-263 | failPending() and handleReply() under the lock: take the request and the queue's front out together |
| Channel.CloseKeeps | src/remote/channel.cpp:442-458 | onClosed() takes over every pending and queued completion |
| ChannelTheorems.QueuedIsNotStranded | src/remote/channel.cpp:176-279 | while connected a non-empty queue implies that pending requests plus hand-overs in progress reach the limit; with all calls returned every slot is taken |
| ChannelTheorems.InOnePlace | src/remote/channel.cpp:152-279 | every completion is in exactly one of pending, queued, in hand or completed, once |
| ChannelTheorems.CompletedExactlyOnce | src/remote/channel.cpp:442-465 | once the channel has closed and its calls have returned, every completion was completed exactly once |
| ChannelTheorems.WithinLimits | src/remote/channel.cpp:176-195 | request ids are never reused; pending and queued never exceed their limits |
| ChannelTheorems.CallsReturn | src/remote/channel.cpp:265-279 | no sequence of the calls' own steps is longer than a measure of the state: launch() never loops forever |
| ChannelEnds.EveryEndHasItsReason | src/remote/channel.cpp:152-465 | over every run: a completion ends only because launch() found its stop requested, send() refused it - not connected, too big without a strategy, or window and queue both full, each with its error -, onClosed() took it, or with the answer to the request id it was issued; and it is told exactly that |
| ChannelEnds.SendDecides | src/remote/channel.cpp:154-195 | send() refuses exactly in those cases, queues at the back exactly when it does not refuse and the window is full, and otherwise registers under an id never issued before |
| ChannelEnds.StoppedIsNotSent | src/remote/channel.cpp:265-279 | a queued request whose stop launch() finds is completed in that step and never pending, queued or sent in any later state; one that is not stopped goes to send() |
| ChannelEnds.FailsOnlyUnsent | src/remote/channel.cpp:225-263 | over every run: a sender fails its request exactly when the frame did not go out; one that went out leaves the pending table only by a reply or the close |
| ChannelEnds.NegotiatedOnce | src/remote/channel.cpp:310-322 | what the handshake settles, the limit and whether there is a strategy, holds from then on; a closed connection never opens again |
| ChannelEnds.QueueIsFifo | src/remote/channel.cpp:178-182 | a request joins the queue at the back and leaves it from the front to the call that carries it on, or with the close |
| WorkerRuns.EveryScheduleGivesTheResults | src/remote/worker_host.cpp:93-134 | whatever the schedule, the statuses, outputs, messages and codes at the end are those of the recursive definition |
| WorkerRuns.SchedulesAgree | src/remote/worker_host.cpp:105-134 | two schedules of one request end with the same results |
| WorkerRuns.SourcesFinished | src/remote/worker_host.cpp:110-117 | when a body looks at its predecessors they have all finished, and their statuses are final |
| WorkerRuns.StepCalm | src/remote/worker_host.cpp:93-134 | optional jobs that are never cancelled, on an accepting executor, never raise the fatal flag |
| Worker.ConsistentMeans | src/remote/worker_host.cpp:105-130 | the recursive definition: a job is Skipped iff the source of some edge into it is not Done, and then leaves its cell alone; an unknown kind fails with its message; otherwise result, output, message and code are its kind's answer to its predecessors' outputs, one for each edge into it, in the order of the edges |
| Worker.ConsistentUnique | src/remote/worker_host.cpp:105-130 | on an acyclic request the definition has one solution |
| Worker.AnyOrderGivesTheResults | src/remote/worker_host.cpp:143-147 | running the bodies one at a time in any topological order, as the sequential executor does, gives that solution |
| Worker.SourceIsEdge | src/remote/worker_host.cpp:93-99 | predecessorIds lists exactly the sources of the graph's edges into a job |
| Worker.SourcesInOrder | src/remote/worker_host.cpp:93-99 | predecessorIds has one entry for each edge into the job, at the place that edge has among them, and no other list has |
| WorkerReply.RequestRun.JobBody | src/remote/worker_host.cpp:113-132 | the body fills its own entries of the four arrays as the definition says and no others, its inputs being the outputs of the edges' sources in the edges' order |
| WorkerReply.BuildReply | src/remote/worker_host.cpp:149-205 | what is sent for each job follows from its verdict: cyclic requests fail as a whole, only Done exported outputs travel, large ones by strategy or store or not at all; an output is overridden only by a strategy's reference and stays in its entry |
| WorkerReply.EntryMeans | src/remote/worker_host.cpp:164-204 | every entry in full: a cyclic request fails every job; otherwise only a Done exported job's output travels, unchanged where it fits and else as the strategy's reference or the store's handle of at most 64 bytes; a Done job whose output cannot travel is Failed with the error that kept it; every other entry has its job's own status, error and message |
| WorkerReply.FirstFailure | include/sub0pipeline/remote/subgraph.hpp:117-129 | the lowest index that failed, was cancelled or timed out, or none; there is only one such answer |
| WorkerResults.FirstFailureMeans | include/sub0pipeline/remote/subgraph.hpp:117-129 | the first failure is the lowest job that failed itself or whose output could not travel |
| WorkerResults.RemoteOutcome | src/remote/channel.cpp:412-438 | the coordinator's job succeeds iff every job of the request is Done and every exported output could travel; otherwise it takes the own error of the lowest job that failed, or the error that kept its output |
| WorkerResults.RepliesAgree | src/remote/worker_host.cpp:101-205 | two schedules of one request send equal replies, entry by entry, and name the same first failure |
| WorkerReply.NoFailureMeansAllDone | include/sub0pipeline/remote/subgraph.hpp:110-116 | skipping hides no failure: a request without a failed, cancelled or timed-out job has every job Done |
| WorkerPipeline.BuildPipeline | src/remote/worker_host.cpp:105-134 | the pipeline of a request has exactly its edges, each list in push order, unless some job has more than 32767 out-edges |
| Streams.ChunksTile | src/remote/stream_strategy.cpp:83-99 | the send loop's chunks tile the payload from 0 to its end, at most the chunk size each, also for size zero and exact multiples |
| Streams.FrameFits | src/remote/stream_strategy.cpp:158-159 | every chunk frame's body fits a u32 length |
| Streams.ChunkTravels | src/remote/stream_strategy.cpp:91-95 | a sent chunk is read back as the chunk it was made of |
| Streams.ReferenceTravels | src/remote/stream_strategy.cpp:100-109 | the reference that send() returns reads back as its own stream number |
| Streams.ParsesExactly | src/remote/stream_strategy.cpp:116-124 | exactly the frames of chunks that fit into their own total are read |
| Streams.OneStreamOnly | src/remote/stream_strategy.cpp:125-147 | a chunk that contradicts its stream's total changes nothing unless it is a whole payload in a buffer that may be kept; no chunk touches another stream |
| Streams.StreamStrategy.Send | src/remote/stream_strategy.cpp:83-103 | sends exactly the chunk frames in order until the transport fails, and returns the reference iff all went out |
| Streams.StreamStrategy.Negotiate | src/remote/stream_strategy.cpp:65-79 | takes the smaller chunk size; a malformed or zero offer is refused and changes nothing |
| Streams.Handshake | src/remote/stream_strategy.cpp:63-79 | coordinator and worker end with the same chunk size, the smaller of the two |
| Streams.StreamStrategy.OnPayloadFrame | src/remote/stream_strategy.cpp:116-148 | copies a chunk into place, completes a payload when all bytes are there, ignores malformed chunks and contradicting totals |
| Streams.StreamStrategy.ReceivePayload | src/remote/stream_strategy.cpp:105-114 | hands a complete payload out and forgets it, or changes nothing |
| StreamReassembly.DeliveredWholeAndOnce | src/remote/stream_strategy.cpp:105-148 | whatever the order and interleaving of all payloads' chunks and of receive() calls, a stream is found iff all its chunks arrived and it was not taken before, and then with exactly its bytes |
| StreamReassembly.StreamKept | src/remote/stream_strategy.cpp:116-148 | after any events a stream is untouched, partial with the bytes that arrived in place, complete, or taken |
| StreamReassembly.DeliverKeeps | src/remote/stream_strategy.cpp:125-147 | one more chunk of a stream, by the owner's fast path or by copying |
| StreamReassembly.Transfer | src/remote/stream_strategy.cpp:83-148 | a payload from send() over the frames to receive(): if all frames go out the returned reference finds exactly its bytes, and the receiver's other streams are as they were |
| WireRoundTrips.RequestRoundTrip | src/remote/wire.cpp:206-231 | decoding an encoded request gives its id, its edges and its jobs back, each with the override in its place or its own input |
| WireRoundTrips.EncodesWithinLimits | src/remote/wire.cpp:209-218 | there is a frame iff the request has at most 65536 jobs, no overrides or one place for each job, names of at most 65535 bytes, and every input that is sent fits: 64 bytes for a handle, a u32 length for the rest |
| WireRoundTrips.DecodedRequestIsWellFormed | src/remote/wire.cpp:332-361 | whatever the bytes, a request that decodes has at most 65536 jobs, handles of at most 64 bytes, and edges between two different jobs of it |
| WireRoundTrips.GetWrittenPayload | src/remote/wire.cpp:106-122 | a payload comes back unless it is a handle over the limit, which no reader accepts |
| WireReplies.ReplyRoundTrip | src/remote/wire.cpp:238-252 | a reply decodes iff it has at most 65536 results and sends no handle over 64 bytes, and then to its results, each with the override in its place or its own output and its message cut to 65535 bytes |
| WireReplies.CutKeeps | src/remote/wire.cpp:248-248 | exactly the results whose messages fit a u16 length travel unchanged |
| WireReplies.HelloRoundTrip | src/remote/wire.cpp:164-191 | decoding an encoded hello or ack gives exactly what the format carries of it |
| WireReplies.CarriedWhole | src/remote/wire.cpp:173-189 | the hellos and acks that survive unchanged, exactly |
| WireReplies.CarriedMeans | src/remote/wire.cpp:164-191 | what the format carries: the first 255 offers of a hello, the first of an ack if it has a name, none from minor version 0; names cut to 65535 bytes, everything else unchanged |
| WireReplies.CancelRoundTrip | src/remote/wire.cpp:262-267 | a cancel comes back with its id |
| WireReplies.RejectRoundTrip | src/remote/wire.cpp:193-199 | a rejection comes back, its detail cut to 65535 bytes |
| WireDecoding.DecodesExactly | src/remote/wire.cpp:332-361 | a frame decodes to a request iff the request is within the limits, its edges joining different jobs of it, and the frame starts with its encoding, any byte but 0 meaning exported; trailing bytes are ignored |
| WireDecoding.RepliesExactly | src/remote/wire.cpp:363-385 | a frame decodes to a reply iff its results are within the limits and the frame starts with their encoding |
| WireDecoding.HellosExactly | src/remote/wire.cpp:281-318 | a frame decodes to a hello iff it holds its fields and, from minor version 1 on, nothing more or its strategies; what a later minor version appends is skipped |
| WireDecoding.CancelsExactly | src/remote/wire.cpp:387-397 | a frame decodes to a cancel iff it starts with the encoding of its id |
| WireDecoding.RejectsExactly | src/remote/wire.cpp:320-330 | a frame decodes to a rejection iff it starts with the encoding of its reason and detail |
| WireDecoding.FrameOfBody | src/remote/wire.cpp:269-279 | a frame has a type iff its length field is its body's length and the type is one of the seven |
| WireCodec.Writer.Int | src/remote/wire.cpp:68-71 | appends the low bytes of a value, lowest first |
| WireCodec.Writer.Finish | src/remote/wire.cpp:60-65 | fills in the body length, giving the whole frame |
| WireCodec.Reader.Int | src/remote/wire.cpp:135-142 | reads a value or latches the failure without moving |
| WireCodec.Reader.Bytes | src/remote/wire.cpp:90-104 | reads a string or blob by its length |
| WireCodec.EncodeRequestFrame | src/remote/wire.cpp:206-231 | the encoding loops write exactly the specified frame, or nothing for the first job over a limit |
| WireCodec.DecodeRequestFrame | src/remote/wire.cpp:332-361 | the decoding loops read exactly what the specification reads, and fail when it does |
| WireCodec.EncodeReplyFrame | src/remote/wire.cpp:238-252 | the reply loop, with overridden outputs, writes exactly the specified frame |
| WireCodec.DecodeReplyFrame | src/remote/wire.cpp:363-385 | the reply loop reads exactly what the specification reads |
| WireCodec.EncodeHelloFrame | src/remote/wire.cpp:164-191 | hello and ack as specified |
| WireCodec.DecodeHelloFrame | src/remote/wire.cpp:281-318 | hello and ack as specified, later minor versions' extra fields skipped |
| WireCodec.ReadFrameType | src/remote/wire.cpp:269-279 | the type of a frame whose length field matches its size |
| LittleEndian.ValueOfLittle | src/remote/wire.cpp:68-71 | writing then reading an integer gives it back modulo its width |
| LittleEndian.LittleOfValue | src/remote/wire.cpp:135-142 | reading then writing an integer gives its bytes back |
| WireFormat.JobFormat | docs/design/cross-process-orchestration.md:392-409 | two jobs and an edge byte by byte, as the documented grammar has them |
| WireFormat.RequestFormat | docs/design/cross-process-orchestration.md:395-406 | a whole request frame byte by byte |
| WireFormat.ReplyFormat | docs/design/cross-process-orchestration.md:395-408 | a whole reply frame byte by byte |
| WireFormat.HelloFormat | src/remote/wire.cpp:164-191 | a hello and an ack of minor version 1 byte by byte |
| WireFormat.ShortFormats | docs/design/cross-process-orchestration.md:395-409 | a cancel, a rejection and a payload chunk byte by byte |
| FrameReaders.FrameReader.Feed | include/sub0pipeline/remote/transport.hpp:136-153 | delivers the frames the buffered bytes complete and keeps the rest; over the limit it stops with the buffer left as it is |
| FrameReaders.DeliversExactlyTheFrames | include/sub0pipeline/remote/transport.hpp:136-153 | whole frames within the limit, then an incomplete or an oversized one, cut anywhere: exactly those frames come out in order, the tail is kept, an oversized length stops the stream |
| FrameReaders.CutsDoNotMatter | include/sub0pipeline/remote/transport.hpp:136-153 | two ways of cutting one stream deliver the same frames and stop after the same one |
| FrameReaders.SplitKeepsBytes | include/sub0pipeline/remote/transport.hpp:141-151 | delivered frames and the rest are the stream: nothing lost or made up |
| FrameReaders.SplitsIntoFrames | include/sub0pipeline/remote/transport.hpp:141-151 | what is delivered are whole frames within the limit, up to an incomplete or oversized one |

## Left out

- DeferredRuns.StepKeeps: its end of a run is guarded by what the code does not look at, that no body and no continuation has anything left to do. `PipelineTheorems` derives from the code's own waits and re-check which runs end so, and carries the theorems of this protocol over.
- DeferredTheorems.HistoryInv: about sequences of runs that end so; PipelineSafety.HistoryOk is the statement about the code's own.
- DeferredTheorems.EndedRunIsComplete: the same; PipelineTheorems.EndedRunIsComplete is the statement about the code's own runs.
- DeferredTheorems.LedgerCounts: the same; see PipelineTheorems.LedgerCounts.
- DeferredTheorems.ResetIsSafe: the same; see PipelineTheorems.ResetIsSafe.
- PipelineResults.DeferredOutcome: likewise speaks of runs until one leaves a job unfinished.
- PipelineTheorems.ResetIsSafe: says nothing of what follows a run that returned with a job unfinished, nor does PipelineTheorems.LedgerCounts: what such a run leaves on the executor is not followed into the next run. `UnfinishedReturnIffRisky` gives the graphs on which that cannot happen.
- PipelineProgress.NeverStuck: bounds neither the length of a whole run nor the bodies' own time; the scheduler's part is bounded by `RunsAreBounded`, the slots' by `JobsSettle`.
- The order in which an inline run takes its ready jobs when some are deferred: its jobs interleave freely in the model, which covers that order. Without deferred jobs `InlineRuns` has the exact order.
- WorkerRuns.EveryScheduleGivesTheResults: assumes kinds that are functions of their inputs and never return the cancelled error, no stop request and an executor that accepts every job; a body's reads and its return are one step, which is exact because its predecessors have finished.
- WorkerResults.RepliesAgree: what a strategy or store answers for a large output is a parameter, the same for both schedules.
- SharedMemory.State.OnReleaseFrame: on a coordinator a release frame that names a block of an open scope breaks the match between holds and scopes; a worker never sends one, the contract gives the exact condition, and `StrayRelease` exhibits such a state.
- Build.Pipeline.AddEdge: the exception of a 32768th successor is a false result; what an application does with the exception is not modelled.
- Memory orders weaker than sequential consistency.
- Wrap-around of 64-bit counters (request ids, block ids, stream numbers) and of the 32-bit completion count.
- `SharedRegion`, the pipe and loopback transports, and the FreeRTOS, Qt and Zephyr adapters: operating-system calls; a transport is an ordered frame queue.
- The executors: each is its contract, that an accepted job runs once, on some thread.
- Copying payload bytes into a region and viewing them from the peer: blocks are extents, not contents.
- The setup bytes of the shared-memory handshake and the store strategy.
- `WorkerHost`'s admission queue and its busy reply; forwarding a stop of a sent request as a cancel frame.
- ChannelEnds.QueueIsFifo: the order in which queued requests are sent is not their order of arrival: one that launch() hands over can find the window full again and rejoin at the back.
- Cooperative timeouts, native timeout helper threads, `TickLoop`, progress fractions and observer events.
- On-demand triggers, job groups, option setters, `dumpText`, `snapshot` and the expression syntax: they would add only easy members.
