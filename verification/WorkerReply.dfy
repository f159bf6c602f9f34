/** The cells of a request's jobs as the worker fills them in place, and the reply it builds from them. */
module WorkerReply {
  import opened Jobs
  import opened Graphs
  import opened Wire
  import opened LittleEndian
  import opened Worker
  import Kahn

  class RequestRun {
    const work: Work
    const predecessorIds: seq<seq<nat>>
    const outputs: array<Payload>
    const errors: array<seq<byte>>
    const codes: array<PipelineError>
    const skipped: array<bool>

    ghost predicate Valid()
      reads this
    {
      && (forall i :: 0 <= i < |work.edges| ==> EdgeOk(work.n, work.edges[i]))
      && |predecessorIds| == work.n && outputs.Length == errors.Length == codes.Length == skipped.Length == work.n
      && forall v {:trigger predecessorIds[v]} :: 0 <= v < work.n ==> predecessorIds[v] == Sources(work.edges, v)
    }

    ghost function Cells(): (cells: seq<Cell>)
      requires Valid()
      reads this, outputs, errors, codes, skipped
      ensures |cells| == work.n
    {
      seq(work.n, i requires 0 <= i < work.n reads this, outputs, errors, codes, skipped =>
        Cell(outputs[i], errors[i], codes[i], skipped[i]))
    }

    constructor (work: Work)
      requires forall i :: 0 <= i < |work.edges| ==> EdgeOk(work.n, work.edges[i])
      ensures Valid() && this.work == work && fresh(outputs) && fresh(errors) && fresh(codes) && fresh(skipped)
      ensures Cells() == seq(work.n, _ => UNTOUCHED)
    {
      this.work := work;
      outputs := new Payload[work.n](_ => NoPayload);
      errors := new seq<byte>[work.n](_ => []);
      codes := new PipelineError[work.n](_ => JobFailed);
      skipped := new bool[work.n](_ => false);
      var ids: seq<seq<nat>> := seq(work.n, _ => []);
      for i := 0 to |work.edges|
        invariant |ids| == work.n
        invariant forall v {:trigger ids[v]} :: 0 <= v < work.n ==> ids[v] == Sources(work.edges[..i], v)
      {
        var e := work.edges[i];
        assert work.edges[..i + 1][..i] == work.edges[..i];
        ids := ids[e.target := ids[e.target] + [e.source]];
      }
      assert work.edges[..|work.edges|] == work.edges;
      predecessorIds := ids;
    }

    /** Some predecessor is not really done. */
    method Skips(v: nat, statuses: seq<Status>) returns (skip: bool)
      requires Valid() && v < work.n && |statuses| == work.n
      ensures skip <==> exists u :: u in predecessorIds[v] && !ReallyDone(statuses, Cells(), u)
    {
      var ids := predecessorIds[v];
      for k := 0 to |ids|
        invariant forall j :: 0 <= j < k ==> ReallyDone(statuses, Cells(), ids[j])
      {
        var p := ids[k];
        EdgeSource(v, k);
        if skipped[p] || statuses[p] != Done {
          assert !ReallyDone(statuses, Cells(), p) && p in ids;
          return true;
        }
      }
      return false;
    }

    /** The predecessors' outputs, in the order of the edges. */
    method Inputs(v: nat) returns (inputs: seq<Payload>)
      requires Valid() && v < work.n
      ensures inputs == Outputs(Cells(), predecessorIds[v])
    {
      var ids := predecessorIds[v];
      inputs := [];
      for k := 0 to |ids|
        invariant inputs == Outputs(Cells(), ids)[..k]
      {
        EdgeSource(v, k);
        inputs := inputs + [outputs[ids[k]]];
      }
    }

    /** The body of job `v`: it skips itself unless every predecessor is really done; an unknown kind fails it. */
    method JobBody(v: nat, statuses: seq<Status>) returns (r: Result)
      requires Valid() && v < work.n && |statuses| == work.n && Cells()[v] == UNTOUCHED
      modifies outputs, errors, codes, skipped
      ensures Valid() && (r, Cells()[v]) == Body(work, v, statuses, old(Cells()))
      ensures forall sources :: InEdgeOrder(work.edges, v, sources) ==>
        (r, Cells()[v]) == BodyFrom(work, v, sources, statuses, old(Cells()))
      ensures Cells() == old(Cells())[v := Cells()[v]]
    {
      hide Sources, InEdgeOrder, Outputs, ReallyDone;
      BodyInOrder(work, v, statuses, Cells());
      ghost var cells := Cells();
      assert cells[v] == UNTOUCHED;
      var skip := Skips(v, statuses);
      if skip {
        skipped[v] := true;
        return Ok;
      }
      if !work.known(v) {
        errors[v] := work.unknown(v);
        return Err(JobFailed);
      }
      var inputs := Inputs(v);
      var a := work.answer(v, inputs);
      outputs[v] := a.output;
      errors[v] := a.message;
      if a.result.Err? { codes[v] := a.result.error; }
      r := a.result;
    }

    lemma EdgeSource(v: nat, k: nat)
      requires Valid() && v < work.n && k < |predecessorIds[v]|
      ensures predecessorIds[v][k] < work.n
    {
      var u := predecessorIds[v][k];
      TargetsAre(work.edges, u, v);
    }
  }

  // ---- The reply ----

  datatype Entry = Entry(status: Status, error: PipelineError, message: seq<byte>, output: Payload)

  /** How the worker can pass a large output on, and what became of each: a reference or key, or an error. */
  datatype Outlet = Outlet(inlineLimit: nat, strategy: bool, store: bool, transfer: nat -> Transfer)
  datatype Transfer = Passed(key: seq<byte>) | Refused(error: PipelineError)

  /** The messages of results that fail on the way out. */
  datatype Texts = Texts(cyclic: seq<byte>, transfer: seq<byte>, noStore: seq<byte>, storeFailed: seq<byte>)

  predicate Large(out: Outlet, p: Payload) { p.Inline? && |p.bytes| > out.inlineLimit }

  /** The output of a Done exported job can be carried. */
  predicate Carries(out: Outlet, v: nat, p: Payload) {
    Large(out, p) ==>
      out.transfer(v).Passed? && (out.strategy || (out.store && |out.transfer(v).key| <= MAX_HANDLE_BYTES))
  }

  function SentOutput(out: Outlet, v: nat, p: Payload): Payload
    requires Carries(out, v, p)
  {
    if !Large(out, p) then p
    else if out.strategy then Reference(out.transfer(v).key)
    else Handle(out.transfer(v).key)
  }

  /** The entry of job `v` in the reply. */
  function EntryOf(verdict: Verdict, exported: bool, out: Outlet, texts: Texts, v: nat): Entry {
    var status := Reported(verdict);
    var error := if status == TimedOut then Timeout else if status == WasCancelled then Cancelled else verdict.cell.code;
    if status != Done || !exported then Entry(status, error, verdict.cell.message, NoPayload)
    else if Carries(out, v, verdict.cell.output) then
      Entry(Done, error, verdict.cell.message, SentOutput(out, v, verdict.cell.output))
    else if out.strategy then Entry(Failed, out.transfer(v).error, texts.transfer, NoPayload)
    else Entry(Failed, JobFailed, if out.store then texts.storeFailed else texts.noStore, NoPayload)
  }

  function ReplyEntry(verdict: Verdict, cyclic: bool, exported: bool, out: Outlet, texts: Texts, v: nat): Entry {
    if cyclic then Entry(Failed, CyclicDependency, texts.cyclic, NoPayload)
    else EntryOf(verdict, exported, out, texts, v)
  }

  /** An entry as it is sent: an override replaces the output. */
  function Sent(entry: Entry, override: Option<Payload>): Entry {
    if override.Some? then entry.(output := override.value) else entry
  }

  /** The reply as run() builds it, job by job. A large output that a payload strategy took stays in its entry and
      is overridden by the reference. */
  method BuildReply(run: RequestRun, statuses: seq<Status>, cyclic: bool, exported: seq<bool>, out: Outlet,
                    texts: Texts, ghost vs: seq<Verdict>) returns (entries: seq<Entry>, overrides: seq<Option<Payload>>)
    requires run.Valid() && |statuses| == |exported| == |vs| == run.work.n
    requires forall v :: 0 <= v < run.work.n ==> vs[v].cell == run.Cells()[v] && StatusOf(vs[v].result) == statuses[v]
    ensures |entries| == |overrides| == run.work.n
    ensures forall v :: 0 <= v < run.work.n ==>
      Sent(entries[v], overrides[v]) == ReplyEntry(vs[v], cyclic, exported[v], out, texts, v)
    ensures forall v :: 0 <= v < run.work.n && overrides[v].Some? ==>
      && overrides[v].value.Reference? && out.strategy
      && entries[v].output == vs[v].cell.output && Large(out, entries[v].output)
  {
    hide ReplyEntry, Sent, Large, Reported;
    entries, overrides := [], [];
    for i := 0 to run.work.n
      invariant |entries| == |overrides| == i
      invariant forall v :: 0 <= v < i ==>
        Sent(entries[v], overrides[v]) == ReplyEntry(vs[v], cyclic, exported[v], out, texts, v)
      invariant forall v :: 0 <= v < i && overrides[v].Some? ==>
        && overrides[v].value.Reference? && out.strategy
        && entries[v].output == vs[v].cell.output && Large(out, entries[v].output)
    {
      var entry, override := EntryAt(run, statuses, cyclic, exported[i], out, texts, vs[i], i);
      entries, overrides := entries + [entry], overrides + [override];
    }
  }

  /** One job's entry. */
  method EntryAt(run: RequestRun, statuses: seq<Status>, cyclic: bool, exported: bool, out: Outlet, texts: Texts,
                 ghost verdict: Verdict, i: nat) returns (entry: Entry, override: Option<Payload>)
    requires run.Valid() && i < run.work.n == |statuses|
    requires verdict.cell == run.Cells()[i] && StatusOf(verdict.result) == statuses[i]
    ensures Sent(entry, override) == ReplyEntry(verdict, cyclic, exported, out, texts, i)
    ensures override.Some? ==> override.value.Reference? && out.strategy && entry.output == verdict.cell.output
                               && Large(out, entry.output)
  {
    if cyclic { return Entry(Failed, CyclicDependency, texts.cyclic, NoPayload), None; }
    var status := if run.skipped[i] then Skipped else statuses[i];
    var error := if status == WasCancelled then Cancelled else if status == TimedOut then Timeout else run.codes[i];
    entry := Entry(status, error, run.errors[i], NoPayload);
    override := None;
    if status != Done || !exported { return; }
    entry := entry.(output := run.outputs[i]);
    if !entry.output.Inline? || |entry.output.bytes| <= out.inlineLimit { return; }
    var t := out.transfer(i);
    if out.strategy {
      if t.Passed? { return entry, Some(Reference(t.key)); }
      return Entry(Failed, t.error, texts.transfer, NoPayload), None;
    }
    if out.store && t.Passed? && |t.key| <= MAX_HANDLE_BYTES { return entry.(output := Handle(t.key)), None; }
    return Entry(Failed, JobFailed, if out.store then texts.storeFailed else texts.noStore, NoPayload), None;
  }

  predicate Failure(s: Status) { s == Failed || s == WasCancelled || s == TimedOut }

  /** The lowest failed entry, if any failed. */
  predicate IsFirstFailure(entries: seq<Entry>, first: Option<nat>) {
    match first
    case None => forall i :: 0 <= i < |entries| ==> !Failure(entries[i].status)
    case Some(k) =>
      && k < |entries| && Failure(entries[k].status)
      && forall i :: 0 <= i < k ==> !Failure(entries[i].status)
  }

  lemma FirstFailureUnique(entries: seq<Entry>, a: Option<nat>, b: Option<nat>)
    requires IsFirstFailure(entries, a) && IsFirstFailure(entries, b)
    ensures a == b
  {
    if a.Some? && b.Some? {
      assert !(a.value < b.value) && !(b.value < a.value);
    }
  }

  /** firstFailure(): the lowest job that failed, was cancelled or timed out. */
  method FirstFailure(entries: seq<Entry>) returns (first: Option<nat>)
    ensures IsFirstFailure(entries, first)
  {
    for i := 0 to |entries|
      invariant forall j :: 0 <= j < i ==> !Failure(entries[j].status)
    {
      if Failure(entries[i].status) { return Some(i); }
    }
    return None;
  }

  /** The job is Done and exported, and its output is too large to travel and could not be handed over. */
  predicate Unsent(verdict: Verdict, exported: bool, out: Outlet, v: nat) {
    Reported(verdict) == Done && exported && !Carries(out, v, verdict.cell.output)
  }

  /** The error an entry carries when nothing went wrong on the way out. */
  predicate OwnError(verdict: Verdict, error: PipelineError) {
    && (Reported(verdict) == TimedOut ==> error == Timeout)
    && (Reported(verdict) == WasCancelled ==> error == Cancelled)
    && (Reported(verdict) != TimedOut && Reported(verdict) != WasCancelled ==> error == verdict.cell.code)
  }

  /** What an entry says. A cyclic request fails every job. Otherwise only a Done exported job's output travels: as it is
      where it fits, as the strategy's reference or the store's handle where it does not; and the status is the job's own
      except that a Done job whose output cannot travel failed, with the error that kept it. */
  lemma EntryMeans(verdict: Verdict, cyclic: bool, exported: bool, out: Outlet, texts: Texts, v: nat)
    ensures var e := ReplyEntry(verdict, cyclic, exported, out, texts, v);
      && (cyclic ==> e == Entry(Failed, CyclicDependency, texts.cyclic, NoPayload))
      && (!cyclic && !Unsent(verdict, exported, out, v) ==>
            e.status == Reported(verdict) && e.message == verdict.cell.message && OwnError(verdict, e.error))
      && (!cyclic && Unsent(verdict, exported, out, v) ==>
            && e.status == Failed && e.output.NoPayload?
            && (out.strategy ==> out.transfer(v) == Refused(e.error) && e.message == texts.transfer)
            && (!out.strategy ==> e.error == JobFailed && e.message == if out.store then texts.storeFailed else texts.noStore))
      && (!cyclic && (Reported(verdict) != Done || !exported) ==> e.output.NoPayload?)
      && (!cyclic && e.status == Done && exported ==>
            match verdict.cell.output
            case Inline(bytes) =>
              if |bytes| <= out.inlineLimit then e.output == Inline(bytes)
              else out.transfer(v).Passed? && e.output == if out.strategy then Reference(out.transfer(v).key)
                                                          else Handle(out.transfer(v).key)
            case other => e.output == other)
      && (e.output.Handle? && verdict.cell.output.Inline? ==> |e.output.bytes| <= MAX_HANDLE_BYTES)
  {
  }

  /** Skipping never hides a failure: a request without a failed, cancelled or timed-out job has every job Done. */
  lemma NoFailureMeansAllDone(w: Work, vs: seq<Verdict>)
    requires WorkOk(w) && Acyclic(GraphOf(w)) && Consistent(w, vs)
    requires forall v :: 0 <= v < w.n ==> !Failure(Reported(vs[v]))
    ensures forall v :: 0 <= v < w.n ==> Reported(vs[v]) == Done
  {
    hide GraphOf, Judge, Reported;
    GraphWellFormed(w);
    var g := GraphOf(w);
    var order := Kahn.Order(g);
    Kahn.OrderTheorem(g);
    forall v | 0 <= v < w.n ensures Reported(vs[v]) == Done {
      Kahn.InOrder(w.n, order, v);
      var k :| 0 <= k < |order| && order[k] == v;
      DoneAlong(w, vs, order, k);
    }
  }

  lemma {:induction false} DoneAlong(w: Work, vs: seq<Verdict>, order: seq<nat>, k: nat)
    requires WorkOk(w) && Consistent(w, vs) && Kahn.IsTopological(GraphOf(w), order) && k < |order| == w.n
    requires forall v :: 0 <= v < w.n ==> !Failure(Reported(vs[v]))
    ensures order[k] < w.n && Reported(vs[order[k]]) == Done
    decreases k
  {
    hide GraphOf, Sources, Judge;
    OrderAt(w, order, k);
    var v := order[k];
    var sources := Sources(w.edges, v);
    SourcesInOrder(w.edges, v, sources);
    ConsistentMeans(w, vs, v, sources);
    EndStatus(vs[v]);
    if Reported(vs[v]) == Skipped {
      var j :| 0 <= j < |sources| && Reported(vs[sources[j]]) != Done;
      var u := sources[j];
      SourcesBefore(w, order, k, u);
      var i :| 0 <= i < k && order[..k][i] == u;
      DoneAlong(w, vs, order, i);
    }
  }

  lemma EndStatus(v: Verdict)
    ensures Reported(v) == Skipped || Reported(v) == Done || Failure(Reported(v))
  {
  }
}
