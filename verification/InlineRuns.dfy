/** A run on an executor that runs jobs on the calling thread: the worklist loop of runImpl() over
    plain jobs (neither deferred nor on-demand), with the bodies' results given by an oracle. */
module InlineRuns {
  import opened Jobs
  import opened Graphs
  import K = Kahn
  import Scheduler
  import Build

  /** The index in `order` of the first fatal job, or |order|. */
  function FirstFatal(order: seq<nat>, optional: seq<bool>, results: seq<Result>, i: nat): (f: nat)
    requires i <= |order| && |optional| == |results|
    requires forall x :: 0 <= x < |order| ==> order[x] < |results|
    ensures i <= f <= |order|
    ensures forall x :: i <= x < f ==> !FatalResult(optional[order[x]], results[order[x]])
    ensures f < |order| ==> FatalResult(optional[order[f]], results[order[f]])
    decreases |order| - i
  {
    if i == |order| || FatalResult(optional[order[i]], results[order[i]]) then i
    else FirstFatal(order, optional, results, i + 1)
  }

  lemma FirstFatalUnique(order: seq<nat>, optional: seq<bool>, results: seq<Result>, f: nat)
    requires f <= |order| && |optional| == |results|
    requires forall x :: 0 <= x < |order| ==> order[x] < |results|
    requires forall x :: 0 <= x < f ==> !FatalResult(optional[order[x]], results[order[x]])
    requires f < |order| ==> FatalResult(optional[order[f]], results[order[f]])
    ensures FirstFatal(order, optional, results, 0) == f
  {
    var h := FirstFatal(order, optional, results, 0);
  }

  predicate IsSettled(st: Status) { st != Pending && st != Ready }

  class InlineRun {
    const g: Graph
    const optional: seq<bool>
    const results: seq<Result>   // what invoke() returns for each node

    var status: seq<Status>
    var unmet: seq<int>
    var ready: seq<nat>          // inlineReady_
    var skipped: seq<nat>
    var skipRead: nat
    var draining: bool
    var completed: nat
    var fatal: bool
    var failure: Option<(nat, PipelineError)>
    ghost var cut: seq<nat>      // out-edges whose target was decremented
    ghost var ran: seq<nat>      // the bodies in the order they were entered

    constructor (g: Graph, optional: seq<bool>, results: seq<Result>)
      ensures this.g == g && this.optional == optional && this.results == results
    {
      this.g, this.optional, this.results := g, optional, results;
      status, unmet, ready, skipped, skipRead, draining := [], [], [], [], 0, false;
      completed, fatal, failure, cut, ran := 0, false, None, [], [];
    }

    predicate Input()
    {
      WellFormed(g) && |optional| == |results| == |g|
    }

    predicate Fatal(v: nat)
      requires v < |optional| && v < |results|
    {
      FatalResult(optional[v], results[v])
    }

    ghost function Work(): K.Work
      reads this`unmet, this`ready, this`cut
    {
      K.Work(unmet, ready, cut)
    }

    // ---- Before the first fatal result ----

    /** Statuses follow the worklist: finished before `next`, Ready from there, Pending if unlisted. */
    ghost predicate StatusesOk(next: nat)
      reads this`status, this`ready
    {
      Follow(status, ready, next)
    }

    ghost predicate Follow(status: seq<Status>, ready: seq<nat>, next: nat) {
      && |status| == |g| && next <= |ready| && |results| == |optional| == |g|
      && (forall x :: 0 <= x < |ready| ==> ready[x] < |g|)
      && (forall x :: 0 <= x < next ==> status[ready[x]] == StatusOf(results[ready[x]]) && !Fatal(ready[x]))
      && (forall x :: next <= x < |ready| ==> status[ready[x]] == Ready)
      && (forall v :: 0 <= v < |g| && v !in ready ==> status[v] == Pending)
    }

    /** Waking an unlisted node keeps the statuses with the worklist. */
    lemma Wakes(status: seq<Status>, ready: seq<nat>, next: nat, s: nat)
      requires Follow(status, ready, next) && s < |g| && s !in ready
      ensures status[s] == Pending && Follow(status[s := Ready], ready + [s], next)
    {
    }

    /** Nothing fatal so far: the run has visited exactly what validation visits. */
    ghost predicate Calm(next: nat)
      reads this
    {
      && Input() && !fatal && failure == None && skipped == [] && skipRead == 0 && !draining
      && completed == next && next <= |ready| && ran == ready[..next]
      && Work() == K.After(g, next) && K.WorkOk(g, Work(), next, 0)
      && StatusesOk(next)
    }

    // ---- From the first fatal result on ----

    predicate Settled(v: nat)
      requires v < |status|
      reads this`status
    {
      IsSettled(status[v])
    }

    /** Every node has either been visited before the fatal job, is that job, or is untouched by
        anything but skipping; worklist entries read so far have had all their successors claimed. */
    ghost predicate Skipping(f: nat)
      reads this`status, this`skipped, this`fatal, this`failure, this`ran, this`ready
    {
      && Input() && fatal && f < |ready| && |status| == |g|
      && (forall x :: 0 <= x < |ready| ==> ready[x] < |g|)
      && (forall x :: 0 <= x < f ==> !Fatal(ready[x]))
      && Fatal(ready[f]) && failure == Some((ready[f], results[ready[f]].error))
      && ran == ready[..f + 1]
      && (forall x :: 0 <= x <= f ==> status[ready[x]] == StatusOf(results[ready[x]]))
      && (forall v :: 0 <= v < |g| && v !in ready[..f + 1] ==> status[v] in {Pending, Ready, Skipped})
      && (forall i :: 0 <= i < |skipped| ==> skipped[i] < |g| && status[skipped[i]] == Skipped)
      && (forall i, j :: 0 <= i < j < |skipped| ==> skipped[i] != skipped[j])
      && (forall v :: 0 <= v < |g| && status[v] == Skipped ==> v in skipped)
    }

    ghost predicate ClaimedAll(u: nat, k: nat)
      reads this`status
    {
      |status| == |g| && u < |g| && k <= |g[u]| && forall e :: 0 <= e < k && g[u][e] < |g| ==> Settled(g[u][e])
    }

    ghost predicate Drained(upTo: nat)
      reads this`status, this`skipped
    {
      upTo <= |skipped| && forall i :: 0 <= i < upTo ==> ClaimedAll(skipped[i], if skipped[i] < |g| then |g[skipped[i]]| else 0)
    }

    /** enqueueSkip(): claim the node unless it has started or was claimed. */
    method EnqueueSkip(v: nat, ghost f: nat)
      requires Skipping(f) && v < |g|
      modifies this`status, this`skipped
      ensures Skipping(f) && Settled(v)
      ensures forall w :: 0 <= w < |g| && old(Settled(w)) ==> Settled(w)
      ensures old(skipped) <= skipped
      ensures forall n: nat :: old(Drained(n)) ==> Drained(n)
      ensures forall u: nat, k: nat :: old(ClaimedAll(u, k)) ==> ClaimedAll(u, k)
    {
      hide Input, Fatal;
      if status[v] == Pending || status[v] == Ready {
        status := status[v := Skipped];
        skipped := skipped + [v];
      }
    }

    lemma WorklistBounded(f: nat)
      requires Skipping(f)
      ensures |status| == |g| && |skipped| <= |g|
      ensures forall i :: 0 <= i < |skipped| ==> skipped[i] < |g|
    {
      K.DistinctBounded(skipped, |g|);
    }

    /** Claims every successor of `u`. */
    method ClaimSuccessors(u: nat, ghost f: nat)
      requires Skipping(f) && u < |g|
      modifies this`status, this`skipped
      ensures Skipping(f) && ClaimedAll(u, |g[u]|)
      ensures forall w :: 0 <= w < |g| && old(Settled(w)) ==> Settled(w)
      ensures old(skipped) <= skipped
      ensures forall n: nat :: old(Drained(n)) ==> Drained(n)
    {
      hide Skipping;
      WorklistBounded(f);
      var k := 0;
      while k < |g[u]|
        invariant 0 <= k <= |g[u]| && |status| == |g| && Skipping(f) && ClaimedAll(u, k)
        invariant forall w :: 0 <= w < |g| && old(Settled(w)) ==> Settled(w)
        invariant old(skipped) <= skipped
        invariant forall n: nat :: old(Drained(n)) ==> Drained(n)
      {
        InRange(f, u, k);
        EnqueueSkip(g[u][k], f);
        WorklistBounded(f);
        k := k + 1;
      }
    }

    lemma InRange(f: nat, u: nat, k: nat)
      requires Skipping(f) && u < |g| && k < |g[u]|
      ensures g[u][k] < |g|
    {
    }

    /** One turn of the worklist loop: the next entry's successors are claimed, and it is counted. */
    method DrainOne(ghost f: nat)
      requires Skipping(f) && skipRead < |skipped| && Drained(skipRead)
      modifies this`status, this`skipped, this`skipRead, this`completed
      ensures Skipping(f) && skipRead == old(skipRead) + 1 && Drained(skipRead) && skipRead <= |skipped|
      ensures completed == old(completed) + 1
      ensures |status| == |g| == old(|status|)
      ensures forall w :: 0 <= w < |g| && old(Settled(w)) ==> Settled(w)
    {
      hide Skipping;
      WorklistBounded(f);
      var u := skipped[skipRead];
      skipRead := skipRead + 1;
      ClaimSuccessors(u, f);
      completed := completed + 1;
      WorklistBounded(f);
      assert Drained(skipRead - 1) && skipped[skipRead - 1] == u;
    }

    /** skipNode(): claim a node and everything below it, counting each once. */
    method SkipNode(v: nat, ghost f: nat)
      requires Skipping(f) && v < |g| && !draining && skipRead == |skipped| && Drained(skipRead)
      requires completed == f + 1 + skipRead
      modifies this`status, this`skipped, this`skipRead, this`draining, this`completed
      ensures Skipping(f) && !draining && skipRead == |skipped| && Drained(skipRead)
      ensures completed == f + 1 + skipRead
      ensures |status| == |g| == old(|status|) && Settled(v)
      ensures forall w :: 0 <= w < |g| && old(Settled(w)) ==> Settled(w)
    {
      hide Skipping;
      WorklistBounded(f);
      EnqueueSkip(v, f);
      draining := true;
      WorklistBounded(f);
      while skipRead < |skipped|
        invariant Skipping(f) && skipRead <= |skipped| <= |g| == |status| && Drained(skipRead) && Settled(v)
        invariant completed == f + 1 + skipRead
        invariant forall w :: 0 <= w < |g| && old(Settled(w)) ==> Settled(w)
        decreases |g| - skipRead
      {
        DrainOne(f);
        WorklistBounded(f);
      }
      draining := false;
    }

    /** A fatal result at entry `f`, and every skip it caused so far completely drained. */
    ghost predicate Contained(f: nat)
      reads this
    {
      && Skipping(f) && !draining && skipRead == |skipped| && Drained(skipRead)
      && completed == f + 1 + skipRead
      && Work() == K.After(g, f) && K.WorkOk(g, Work(), f, 0)
    }

    // ---- dispatchJob() and finishJob() ----

    /** The body of entry `i` returned, its status is stored and counted, nothing else happened. */
    ghost predicate Stored(i: nat)
      reads this
    {
      && Input() && !fatal && failure == None && skipped == [] && skipRead == 0 && !draining
      && i < |ready| && completed == i + 1 && ran == ready[..i + 1]
      && Work() == K.After(g, i) && K.WorkOk(g, Work(), i, 0)
      && |status| == |g|
      && (forall x :: 0 <= x < |ready| ==> ready[x] < |g|)
      && (forall x :: 0 <= x < i ==> status[ready[x]] == StatusOf(results[ready[x]]) && !Fatal(ready[x]))
      && status[ready[i]] == StatusOf(results[ready[i]])
      && (forall x :: i < x < |ready| ==> status[ready[x]] == Ready)
      && (forall v :: 0 <= v < |g| && v !in ready ==> status[v] == Pending)
    }

    lemma ReadyDistinct(i: nat)
      requires K.WorkOk(g, Work(), i, 0)
      ensures forall x, y :: 0 <= x < y < |ready| ==> ready[x] != ready[y]
      ensures |ready| <= |g|
    {
      hide K.Forward;
      K.DistinctBounded(ready, |g|);
    }

    /** The job's body runs, and its status is stored and counted. */
    method RunJob(ghost i: nat, v: nat)
      requires Calm(i) && i < |ready| && v == ready[i]
      modifies this`status, this`completed, this`ran
      ensures Stored(i)
    {
      hide K.WorkOk, K.After;
      ReadyDistinct(i);
      status := status[v := Running];
      ran := ran + [v];
      status := status[v := StatusOf(results[v])];
      completed := completed + 1;
    }

    lemma StartSkipping(i: nat)
      requires fatal && |ready| > i && ready[i] < |g| && |results| == |g|
      requires results[ready[i]].Err? && failure == Some((ready[i], results[ready[i]].error))
      requires Input() && skipped == [] && skipRead == 0 && !draining && completed == i + 1 && ran == ready[..i + 1]
      requires |status| == |g| && (forall x :: 0 <= x < |ready| ==> ready[x] < |g|)
      requires forall x :: 0 <= x < i ==> status[ready[x]] == StatusOf(results[ready[x]]) && !Fatal(ready[x])
      requires status[ready[i]] == StatusOf(results[ready[i]]) && Fatal(ready[i])
      requires forall x :: i < x < |ready| ==> status[ready[x]] == Ready
      requires forall v :: 0 <= v < |g| && v !in ready ==> status[v] == Pending
      ensures Skipping(i) && Drained(skipRead)
    {
      forall x | 0 <= x <= i
        ensures ready[x] in ready[..i + 1]
      {
        assert ready[..i + 1][x] == ready[x];
      }
      forall v | 0 <= v < |g|
        ensures status[v] != Skipped
      {
        if v in ready { var x :| 0 <= x < |ready| && ready[x] == v; }
      }
    }

    lemma VisitedSettled(i: nat)
      requires Skipping(i)
      ensures |status| == |g| && i < |ready|
      ensures forall x :: 0 <= x <= i ==> ready[x] < |g| && Settled(ready[x])
    {
    }

    /** Skips every successor of the failed job. */
    method SkipSuccessors(ghost f: nat, v: nat)
      requires Contained(f) && v < |g|
      modifies this`status, this`skipped, this`skipRead, this`draining, this`completed
      ensures Contained(f) && |status| == |g| && ClaimedAll(v, |g[v]|)
    {
      hide K.WorkOk, K.After, Skipping;
      var k := 0;
      WorklistBounded(f);
      while k < |g[v]|
        invariant 0 <= k <= |g[v]| && Contained(f) && |status| == |g| && ClaimedAll(v, k)
      {
        InRange(f, v, k);
        SkipNode(g[v][k], f);
        k := k + 1;
      }
    }

    /** The failing end of finishJob(): record the failure, then skip the successors. */
    method FailJob(ghost i: nat, v: nat)
      requires Stored(i) && v == ready[i] && Fatal(v)
      modifies this`status, this`skipped, this`skipRead, this`draining, this`completed, this`fatal, this`failure
      ensures Contained(i) && |status| == |g| && v < |g| && ClaimedAll(v, |g[v]|)
      ensures forall x :: 0 <= x <= i ==> ready[x] < |g| && Settled(ready[x])
    {
      hide K.WorkOk, K.After;
      fatal, failure := true, Some((v, results[v].error));
      StartSkipping(i);
      hide Skipping;
      SkipSuccessors(i, v);
      VisitedSettled(i);
    }

    /** Some edges of entry `i` have been decremented, each target that reached zero was listed. */
    ghost predicate Passing(i: nat, k: nat)
      reads this
    {
      && Input() && !fatal && failure == None && skipped == [] && skipRead == 0 && !draining
      && i < |K.After(g, i).ready| && completed == i + 1
      && K.After(g, i).ready <= ready && ran == ready[..i + 1] && K.After(g, i).ready[i] == ready[i]
      && ready[i] < |g| && k <= |g[ready[i]]|
      && K.After(g, i).cut[ready[i]] == 0
      && Work() == K.VisitTo(g, K.After(g, i), ready[i], k) && K.WorkOk(g, Work(), i, k)
      && StatusesOk(i + 1)
    }

    /** One edge: decrement the target; at zero make it Ready and list it. */
    method PassEdge(ghost i: nat, v: nat, k: nat)
      requires Passing(i, k) && v == ready[i] && k < |g[v]|
      modifies this`status, this`unmet, this`ready, this`cut
      ensures Passing(i, k + 1) && v == ready[i]
    {
      hide K.WorkOk, K.After, K.VisitTo, Open, InDegree, Input, IsCut, Follow;
      PassFacts(i, k);
      K.ConsumeOk(g, Work(), i, k);
      EdgeVisit(i, v, k);
      var s := g[v][k];
      Wakes(status, ready, i + 1, s);
      unmet := unmet[s := unmet[s] - 1];
      cut := cut[v := cut[v] + 1];
      if unmet[s] == 0 {
        if status[s] == Pending {
          status := status[s := Ready];
          ready := ready + [s];
        }
      }
    }

    lemma EdgeVisit(i: nat, v: nat, k: nat)
      requires Passing(i, k) && v == ready[i] && k < |g[v]|
      ensures K.VisitTo(g, K.After(g, i), v, k + 1) == K.Consume(g, Work(), v)
    {
      hide K.WorkOk, K.After;
      PassFacts(i, k);
      K.VisitStep(g, K.After(g, i), v, k);
    }

    lemma PassFacts(i: nat, k: nat)
      requires Passing(i, k) && k < |g[ready[i]]|
      ensures WellFormed(g) && g[ready[i]][k] < |g| == |unmet| == |cut| == |status| && IsCut(g, cut) && cut[ready[i]] == k
      ensures g[ready[i]][k] !in ready && unmet[g[ready[i]][k]] >= 1
    {
      hide K.Forward, K.VisitTo, K.After;
      K.ConsumeReady(g, Work(), i, k);
    }

    /** The passing end of finishJob(): wake the successors that wait for nothing else. */
    method PassJob(ghost i: nat, v: nat)
      requires Stored(i) && v == ready[i] && !Fatal(v)
      modifies this`status, this`unmet, this`ready, this`cut
      ensures Calm(i + 1)
    {
      StartPassing(i);
      hide K.WorkOk, K.After, K.VisitTo;
      var k := 0;
      while k < |g[v]|
        invariant 0 <= k <= |g[v]| && Passing(i, k) && v == ready[i]
      {
        PassEdge(i, v, k);
        k := k + 1;
      }
      EndPassing(i);
    }

    lemma StartPassing(i: nat)
      requires Stored(i) && !Fatal(ready[i])
      ensures Passing(i, 0)
    {
      hide K.WorkOk, K.After;
      K.ListBounded(g, Work(), i);
    }

    lemma EndPassing(i: nat)
      requires i < |ready| && ready[i] < |g| && Passing(i, |g[ready[i]]|)
      ensures Calm(i + 1)
    {
      hide K.Forward, Open, InDegree;
      K.VisitDone(g, Work(), i);
    }

    /** dispatchJob() on worklist entry `i`. */
    method DispatchJob(ghost i: nat, v: nat, ghost f: nat)
      requires |ready| > i && v == ready[i]
      requires !fatal ==> Calm(i)
      requires fatal ==> Contained(f) && v < |g|
      modifies this`status, this`unmet, this`ready, this`cut, this`skipped, this`skipRead, this`draining,
               this`completed, this`fatal, this`failure, this`ran
      ensures old(fatal) ==> Contained(f) && ready == old(ready) && |status| == |g| == old(|status|) && v < |g| && Settled(v)
      ensures old(fatal) ==> forall w :: 0 <= w < |g| && old(Settled(w)) ==> Settled(w)
      ensures !old(fatal) && fatal ==> Contained(i) && |status| == |g| && v < |g| && ClaimedAll(v, |g[v]|) && ready == old(ready)
      ensures !old(fatal) && fatal ==> forall x :: 0 <= x <= i ==> ready[x] < |g| && Settled(ready[x])
      ensures !fatal ==> Calm(i + 1)
      ensures old(fatal) ==> fatal
    {
      hide K.WorkOk, K.After;
      if fatal {
        SkipNode(v, f);
        return;
      }
      RunJob(i, v);
      if Fatal(v) {
        FailJob(i, v);
      } else {
        PassJob(i, v);
      }
    }

    /** Run initialisation: every node's counter and status, and the roots as first worklist. */
    method Reset(predecessors: seq<nat>, roots: seq<nat>, ghost p: Scheduler.Plan)
      requires Input() && Build.Counted(g, predecessors) && PlainPlan(p, g, optional) && roots == Scheduler.Roots(p)
      modifies this
      ensures Calm(0)
    {
      hide InDegree, Scheduler.Roots, K.WorkOk, K.After, K.Start, StatusesOk, NoCut;
      completed, skipped, skipRead, draining, fatal, failure := 0, [], 0, false, false, None;
      InitNodes(predecessors);
      ready := roots;
      cut, ran := NoCut(g), [];
      StartMatches(p, g, optional, unmet);
      K.StartOk(g);
      StartStatuses();
    }

    method InitNodes(predecessors: seq<nat>)
      requires Input() && Build.Counted(g, predecessors)
      modifies this`unmet, this`status
      ensures |unmet| == |status| == |g|
      ensures forall v :: 0 <= v < |g| ==> unmet[v] == InDegree(g, v)
      ensures forall v :: 0 <= v < |g| ==> status[v] == if InDegree(g, v) == 0 then Ready else Pending
    {
      hide InDegree;
      unmet, status := [], [];
      var i := 0;
      while i < |g|
        invariant 0 <= i <= |g| && |unmet| == |status| == i
        invariant forall v :: 0 <= v < i ==> unmet[v] == InDegree(g, v)
        invariant forall v :: 0 <= v < i ==> status[v] == if InDegree(g, v) == 0 then Ready else Pending
      {
        unmet := unmet + [predecessors[i]];
        status := status + [if predecessors[i] == 0 then Ready else Pending];
        i := i + 1;
      }
    }

    lemma StartStatuses()
      requires Input() && Work() == K.Start(g) && |status| == |g|
      requires forall v :: 0 <= v < |g| ==> status[v] == if InDegree(g, v) == 0 then Ready else Pending
      ensures StatusesOk(0)
    {
      hide InDegree;
      forall x | 0 <= x < |ready|
        ensures ready[x] < |g| && status[ready[x]] == Ready
      {
        assert ready[x] in ready;
      }
    }

    /** After a fatal result at entry `f` nothing is left Pending or Ready. */
    lemma {:induction false} AllSettled(f: nat, y: nat)
      requires Contained(f) && |status| == |g| && K.IsTopological(g, K.Order(g)) && y < |K.Order(g)|
      requires forall x :: 0 <= x < |ready| ==> ready[x] < |g| && Settled(ready[x])
      requires ready[f] < |g| && ClaimedAll(ready[f], |g[ready[f]]|)
      ensures K.Order(g)[y] < |g| && Settled(K.Order(g)[y])
      decreases y
    {
      hide K.After, K.Order, OpenFrom, Open, InDegree, K.IsTopological;
      TopologicalAt(g, K.Order(g), y);
      var v := K.Order(g)[y];
      if v !in ready {
        var u, e := UnconsumedEdge(f, v);
        var z := EarlierEntry(g, K.Order(g), y, u, e);
        AllSettled(f, z);
        SettledSource(f, u, e);
      }
    }

    lemma UnconsumedEdge(f: nat, v: nat) returns (u: nat, e: nat)
      requires Contained(f) && v < |g| && v !in ready
      ensures u < |g| && e < |g[u]| && g[u][e] == v && u !in ready[..f]
    {
      hide Skipping, OpenFrom, Open, InDegree, K.After, K.Forward, Drained;
      assert !K.Listed(Work(), v);
      assert forall x :: 0 <= x < f ==> cut[ready[x]] == |g[ready[x]]|;
      u, e := OpenWitness(g, cut, v);
      forall x | 0 <= x < f
        ensures ready[x] != u
      {
      }
    }

    /** A settled node outside the visited part was skipped and drained. */
    lemma SettledSource(f: nat, u: nat, e: nat)
      requires Contained(f) && |status| == |g| && u < |g| && e < |g[u]| && g[u][e] < |g| && Settled(u)
      requires u !in ready[..f] && ready[f] < |g| && ClaimedAll(ready[f], |g[ready[f]]|)
      ensures Settled(g[u][e])
    {
      hide K.After, K.WorkOk;
      if u != ready[f] {
        assert ready[..f + 1] == ready[..f] + [ready[f]];
        assert status[u] == Skipped;
        var i :| 0 <= i < |skipped| && skipped[i] == u;
        assert ClaimedAll(skipped[i], |g[skipped[i]]|);
      }
    }

    /** With everything settled, the skipped list holds exactly the nodes outside the visited part, each once. */
    lemma SkippedIsRest(f: nat)
      requires Contained(f) && |status| == |g| && forall v :: 0 <= v < |g| ==> Settled(v)
      ensures forall v: nat :: v in skipped <==> v < |g| && v !in ready[..f + 1]
      ensures f + 1 + |skipped| == |g|
      ensures forall v :: 0 <= v < |g| && v !in ready[..f + 1] ==> status[v] == Skipped
    {
      hide K.After, K.Forward, Open, InDegree, Drained;
      var all := ready[..f + 1] + skipped;
      ReadyDistinct(f);
      forall x | 0 <= x <= f
        ensures status[ready[x]] != Skipped
      {
      }
      forall i | 0 <= i < |skipped|
        ensures skipped[i] !in ready[..f + 1]
      {
        assert status[skipped[i]] == Skipped;
      }
      forall v | 0 <= v < |g|
        ensures v in all && (v !in ready[..f + 1] ==> status[v] == Skipped)
      {
        if v !in ready[..f + 1] {
          assert Settled(v);
          assert v in skipped;
        }
      }
      DistinctCover(all, |g|);
    }

    /** The specification: the bodies run in validation order up to and including the first fatal
        one, every later node is skipped, every node is counted, and that job's error is returned. */
    method Run(predecessors: seq<nat>, roots: seq<nat>, ghost p: Scheduler.Plan) returns (r: Result)
      requires Input() && Acyclic(g) && Build.Counted(g, predecessors)
      requires PlainPlan(p, g, optional) && roots == Scheduler.Roots(p)
      modifies this
      ensures |K.Order(g)| == |g| == |status| && forall x :: 0 <= x < |g| ==> K.Order(g)[x] < |g|
      ensures var f := FirstFatal(K.Order(g), optional, results, 0);
              && ran == (if f < |g| then K.Order(g)[..f + 1] else K.Order(g))
              && (forall x :: 0 <= x < |g| ==>
                    status[K.Order(g)[x]] == if x <= f then StatusOf(results[K.Order(g)[x]]) else Skipped)
              && completed == |g|
              && r == (if f < |g| then results[K.Order(g)[f]] else Ok)
              && failure == (if f < |g| then Some((K.Order(g)[f], results[K.Order(g)[f]].error)) else None)
    {
      hide K.WorkOk, K.After, K.Order, K.IsTopological, Contained, Calm, ClaimedAll, Settled;
      Reset(predecessors, roots, p);
      ghost var f := DispatchReady();
      if fatal {
        FatalEnd(f);
        return Err(failure.value.1);
      }
      CalmEnd(|ready|);
      return Ok;
    }

    /** The loop over the ready list, which its jobs extend. A fatal result leaves the rest of it skipped. */
    method DispatchReady() returns (ghost f: nat)
      requires Calm(0)
      modifies this`status, this`unmet, this`ready, this`cut, this`skipped, this`skipRead, this`draining,
               this`completed, this`fatal, this`failure, this`ran
      ensures !fatal ==> Calm(|ready|)
      ensures fatal ==> f < |ready| && Contained(f) && |status| == |g|
      ensures fatal ==> ready[f] < |g| && ClaimedAll(ready[f], |g[ready[f]]|)
      ensures fatal ==> forall x :: 0 <= x < |ready| ==> ready[x] < |g| && Settled(ready[x])
    {
      hide K.WorkOk, K.After, K.IsTopological, Contained, Calm;
      var next := 0;
      f := 0;
      CalmBounded(0);
      while next < |ready|
        invariant next <= |ready| <= |g|
        invariant !fatal ==> Calm(next)
        invariant fatal ==> Contained(f) && f < next && |status| == |g|
        invariant fatal ==> ready[f] < |g| && ClaimedAll(ready[f], |g[ready[f]]|)
        invariant fatal ==> forall x :: 0 <= x < |ready| ==> ready[x] < |g|
        invariant fatal ==> forall x :: 0 <= x < next ==> Settled(ready[x])
        decreases |g| - next
      {
        ghost var before := fatal;
        if fatal { ContainedRange(f); } else { CalmBounded(next); }
        DispatchJob(next, ready[next], f);
        if fatal && !before {
          f := next;
          ContainedRange(f);
        }
        next := next + 1;
        if fatal { ContainedBounded(f); } else { CalmBounded(next); }
      }
    }

    lemma CalmBounded(next: nat)
      requires Calm(next)
      ensures !fatal && next <= |ready| <= |g|
      ensures next < |ready| ==> ready[next] < |g|
    {
      hide K.After;
      ReadyDistinct(next);
    }

    lemma ContainedRange(f: nat)
      requires Contained(f)
      ensures forall x :: 0 <= x < |ready| ==> ready[x] < |g|
      ensures f < |ready|
    {
      hide K.After, K.WorkOk;
    }

    lemma ContainedBounded(f: nat)
      requires Contained(f)
      ensures f < |ready| <= |g|
    {
      hide K.After;
      ReadyDistinct(f);
    }

    /** The state in which a failed run ends. */
    lemma FatalEnd(f: nat)
      requires Contained(f) && |status| == |g| && Acyclic(g)
      requires forall x :: 0 <= x < |ready| ==> ready[x] < |g| && Settled(ready[x])
      requires f < |ready| && ready[f] < |g| && ClaimedAll(ready[f], |g[ready[f]]|)
      ensures |K.Order(g)| == |g| && forall x :: 0 <= x < |g| ==> K.Order(g)[x] < |g|
      ensures f < |g| && f == FirstFatal(K.Order(g), optional, results, 0) && ran == K.Order(g)[..f + 1]
      ensures forall x :: 0 <= x < |g| ==>
                status[K.Order(g)[x]] == if x <= f then StatusOf(results[K.Order(g)[x]]) else Skipped
      ensures completed == |g| && Fatal(K.Order(g)[f])
      ensures failure == Some((K.Order(g)[f], results[K.Order(g)[f]].error))
    {
      hide K.After, K.WorkOk, Drained, K.Order;
      var order := K.Order(g);
      K.OrderTheorem(g);
      ContainedBounded(f);
      K.ReadyPrefix(g, f);
      assert forall x :: 0 <= x < |ready| ==> order[x] == ready[x];
      forall v | 0 <= v < |g|
        ensures Settled(v)
      {
        K.InOrder(|g|, order, v);
        var y :| 0 <= y < |order| && order[y] == v;
        AllSettled(f, y);
      }
      SkippedIsRest(f);
      FirstFatalUnique(order, optional, results, f);
      assert ready[..f + 1] == order[..f + 1];
      forall x | f < x < |g|
        ensures order[x] !in ready[..f + 1]
      {
      }
    }

    /** The state in which a successful run ends. */
    lemma CalmEnd(next: nat)
      requires Calm(next) && next == |ready| && Acyclic(g)
      ensures |K.Order(g)| == |g| && forall x :: 0 <= x < |g| ==> K.Order(g)[x] < |g|
      ensures ran == K.Order(g) && completed == |g| == |status| && failure == None
      ensures FirstFatal(K.Order(g), optional, results, 0) == |g|
      ensures forall x :: 0 <= x < |g| ==> status[K.Order(g)[x]] == StatusOf(results[K.Order(g)[x]])
    {
      hide K.After, K.WorkOk;
      K.OrderTheorem(g);
      CalmBounded(next);
      K.AfterStable(g, next, |g|);
      FirstFatalUnique(K.Order(g), optional, results, |g|);
    }
  }

  /** A plan without on-demand or deferred jobs. */
  ghost predicate PlainPlan(p: Scheduler.Plan, g: Graph, optional: seq<bool>) {
    && p.g == g && p.optional == optional && |p.onDemand| == |p.deferred| == |g|
    && (forall v :: 0 <= v < |g| ==> !p.onDemand[v] && !p.deferred[v])
  }

  lemma {:induction false} RootsAreZerosFrom(p: Scheduler.Plan, g: Graph, optional: seq<bool>, i: nat)
    requires PlainPlan(p, g, optional) && i <= |g|
    ensures Scheduler.RootsFrom(p, i) == K.ZerosFrom(K.Start(g).deg, i)
    decreases |g| - i
  {
    hide InDegree;
    if i < |g| { RootsAreZerosFrom(p, g, optional, i + 1); }
  }

  /** Without on-demand jobs the roots are the nodes that validation starts from. */
  lemma RootsAreZeros(p: Scheduler.Plan, g: Graph, optional: seq<bool>)
    requires PlainPlan(p, g, optional)
    ensures Scheduler.Roots(p) == K.Start(g).ready
  {
    hide InDegree;
    RootsAreZerosFrom(p, g, optional, 0);
  }

  lemma StartMatches(p: Scheduler.Plan, g: Graph, optional: seq<bool>, unmet: seq<int>)
    requires WellFormed(g) && PlainPlan(p, g, optional) && |unmet| == |g|
    requires forall v :: 0 <= v < |g| ==> unmet[v] == InDegree(g, v)
    ensures K.Work(unmet, Scheduler.Roots(p), NoCut(g)) == K.Start(g) == K.After(g, 0)
  {
    hide InDegree;
    RootsAreZeros(p, g, optional);
    assert K.Start(g).deg == unmet;
  }

  lemma DistinctCover(s: seq<nat>, n: nat)
    requires (forall x :: 0 <= x < |s| ==> s[x] < n) && (forall x, y :: 0 <= x < y < |s| ==> s[x] != s[y])
    requires forall v :: 0 <= v < n ==> v in s
    ensures |s| == n
  {
    K.DistinctBounded(s, n);
    if |s| < n { var v := K.Missing(s, n); }
  }

  lemma TopologicalAt(g: Graph, order: seq<nat>, y: nat)
    requires K.IsTopological(g, order) && y < |order|
    ensures order[y] < |g|
  {
  }

  lemma EarlierEntry(g: Graph, order: seq<nat>, y: nat, u: nat, e: nat) returns (z: nat)
    requires K.IsTopological(g, order) && y < |order| && u < |g| && e < |g[u]| && g[u][e] == order[y]
    ensures z < y && order[z] == u
  {
    assert u in order[..y];
    z :| 0 <= z < y && order[z] == u;
  }
}
