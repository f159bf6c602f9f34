/** Decoding what was encoded, and what every frame that decodes has in common. */
module WireRoundTrips {
  import opened Jobs
  import opened LittleEndian
  import opened Wire

  // ---- Single fields ----

  lemma GetWritten(v: nat, n: nat, tail: seq<byte>)
    requires v < Pow256(n)
    ensures GetLittle(Cursor(Little(v, n) + tail, true), n) == (v, Cursor(tail, true))
  {
    hide Little, Value, Pow256;
    ValueOfLittle(v, n);
    LittleLength(v, n);
    Split(Little(v, n), tail);
    SmallMod(v, Pow256(n));
  }

  lemma LittleLength(v: nat, n: nat)
    ensures |Little(v, n)| == n
  {
  }

  lemma Split(a: seq<byte>, b: seq<byte>)
    ensures (a + b)[..|a|] == a && (a + b)[|a|..] == b
  {
  }

  lemma GetWrittenBytes(s: seq<byte>, width: nat, tail: seq<byte>)
    requires |s| < Pow256(width)
    ensures GetBytes(Cursor((Little(|s|, width) + s) + tail, true), width) == (s, Cursor(tail, true))
  {
    hide Little, GetLittle;
    Regroup(Little(|s|, width), s, tail);
    GetWritten(|s|, width, s + tail);
    Split(s, tail);
  }

  lemma GetWrittenString(s: seq<byte>, tail: seq<byte>)
    requires |s| <= MAX_U16
    ensures GetString(Cursor(Str(s) + tail, true)) == (s, Cursor(tail, true))
  {
    hide GetBytes, Little, Pow256;
    Widths();
    GetWrittenBytes(s, 2, tail);
  }

  lemma GetWrittenBlob(b: seq<byte>, tail: seq<byte>)
    requires |b| < U32_LIMIT
    ensures GetBlob(Cursor(Blob(b) + tail, true)) == (b, Cursor(tail, true))
  {
    hide GetBytes, Little, Pow256;
    Widths();
    GetWrittenBytes(b, 4, tail);
  }

  /** A payload comes back unless it is a handle over the limit, which no reader accepts. */
  lemma GetWrittenPayload(p: Payload, tail: seq<byte>)
    requires |DataOf(p)| < U32_LIMIT
    ensures GetPayload(Cursor(PayloadBytes(p) + tail, true)) == (if Fits(p) then Some(p) else None, Cursor(tail, true))
  {
    hide GetLittle, GetBlob, Little, Blob, Pow256;
    Widths();
    Regroup(Little(KindOf(p), 1), Blob(DataOf(p)), tail);
    GetWritten(KindOf(p), 1, Blob(DataOf(p)) + tail);
    GetWrittenBlob(DataOf(p), tail);
  }

  // ---- Jobs, edges and results ----

  predicate JobOk(job: JobSpec) { Encodable(job) && job.version < U32_LIMIT && |DataOf(job.input)| < U32_LIMIT }

  /** `mark` is a byte that says whether the job is exported. */
  predicate MarkOk(job: JobSpec, mark: nat) { mark < 256 && (mark != 0 <==> job.exported) }

  lemma GetWrittenJob(job: JobSpec, mark: nat, tail: seq<byte>)
    requires JobOk(job) && MarkOk(job, mark)
    ensures GetJob(Cursor(MarkedJob(job, mark) + tail, true)) == Some((job, Cursor(tail, true)))
  {
    hide GetString, GetLittle, GetPayload, Str, Little, PayloadBytes, Pow256;
    Widths();
    var p := PayloadBytes(job.input);
    var x := Little(mark, 1);
    var v := Little(job.version, 4);
    assert MarkedJob(job, mark) + tail == Str(job.name) + (v + (x + (p + tail)));
    GetWrittenString(job.name, v + (x + (p + tail)));
    GetWritten(job.version, 4, x + (p + tail));
    GetWritten(mark, 1, p + tail);
    GetWrittenPayload(job.input, tail);
  }

  function MarkedJobs(jobs: seq<JobSpec>, marks: seq<nat>): seq<byte>
    requires |marks| == |jobs|
  {
    if jobs == [] then []
    else
      var n := |jobs| - 1;
      MarkedJobs(jobs[..n], marks[..n]) + MarkedJob(jobs[n], marks[n])
  }

  ghost predicate MarksOk(jobs: seq<JobSpec>, marks: seq<nat>) {
    |marks| == |jobs| && forall i {:trigger marks[i]} :: 0 <= i < |jobs| ==> MarkOk(jobs[i], marks[i])
  }

  lemma {:induction false} GetWrittenJobs(jobs: seq<JobSpec>, marks: seq<nat>, tail: seq<byte>)
    requires MarksOk(jobs, marks) && forall i :: 0 <= i < |jobs| ==> JobOk(jobs[i])
    ensures GetJobs(Cursor(MarkedJobs(jobs, marks) + tail, true), |jobs|) == Some((jobs, Cursor(tail, true)))
  {
    hide GetJob, MarkedJob, JobOk, MarkOk;
    if jobs == [] {
      assert MarkedJobs(jobs, marks) + tail == tail;
    } else {
      var n := |jobs| - 1;
      var last := MarkedJob(jobs[n], marks[n]) + tail;
      Regroup(MarkedJobs(jobs[..n], marks[..n]), MarkedJob(jobs[n], marks[n]), tail);
      GetWrittenJobs(jobs[..n], marks[..n], last);
      GetWrittenJob(jobs[n], marks[n], tail);
      assert jobs[..n] + [jobs[n]] == jobs;
    }
  }

  /** The exported bytes that the encoder writes. */
  function Marks(jobs: seq<JobSpec>): (marks: seq<nat>)
    ensures |marks| == |jobs|
  {
    seq(|jobs|, i requires 0 <= i < |jobs| => if jobs[i].exported then 1 else 0)
  }

  lemma {:induction false} WrittenMarks(jobs: seq<JobSpec>)
    ensures MarksOk(jobs, Marks(jobs)) && MarkedJobs(jobs, Marks(jobs)) == JobsBytes(jobs)
  {
    hide MarkedJob;
    if jobs != [] {
      var n := |jobs| - 1;
      WrittenMarks(jobs[..n]);
      assert Marks(jobs)[..n] == Marks(jobs[..n]);
    }
  }

  lemma GetWrittenEdge(e: Edge, n: nat, tail: seq<byte>)
    requires EdgeOk(n, e) && n <= MAX_JOBS
    ensures GetEdge(Cursor(EdgeBytes(e) + tail, true), n) == Some((e, Cursor(tail, true)))
  {
    hide GetLittle, Little, Pow256;
    Widths();
    Regroup(Little(e.source, 4), Little(e.target, 4), tail);
    GetWritten(e.source, 4, Little(e.target, 4) + tail);
    GetWritten(e.target, 4, tail);
  }

  lemma {:induction false} GetWrittenEdges(edges: seq<Edge>, n: nat, tail: seq<byte>)
    requires n <= MAX_JOBS && forall i :: 0 <= i < |edges| ==> EdgeOk(n, edges[i])
    ensures GetEdges(Cursor(EdgesBytes(edges) + tail, true), n, |edges|) == Some((edges, Cursor(tail, true)))
  {
    hide GetEdge, EdgeBytes, EdgeOk;
    if edges == [] {
      assert EdgesBytes(edges) + tail == tail;
    } else {
      var k := |edges| - 1;
      Regroup(EdgesBytes(edges[..k]), EdgeBytes(edges[k]), tail);
      GetWrittenEdges(edges[..k], n, EdgeBytes(edges[k]) + tail);
      GetWrittenEdge(edges[k], n, tail);
      assert edges[..k] + [edges[k]] == edges;
    }
  }

  lemma {:induction false} EdgesLength(edges: seq<Edge>)
    ensures |EdgesBytes(edges)| == 8 * |edges|
  {
    if edges != [] {
      LittleLength(edges[|edges| - 1].source, 4);
      LittleLength(edges[|edges| - 1].target, 4);
      EdgesLength(edges[..|edges| - 1]);
    }
  }

  // ---- Frames ----

  lemma FrameIsTyped(frameType: nat, body: seq<byte>)
    requires HELLO <= frameType <= PAYLOAD && |body| < U32_LIMIT
    ensures FrameType(FrameOf(frameType, body)) == Some(frameType)
    ensures FrameOf(frameType, body)[HEADER_BYTES..] == body
  {
    hide Little, Value, Pow256;
    Widths();
    var frame := FrameOf(frameType, body);
    LittleLength(|body|, 4);
    LittleLength(frameType, 1);
    OneByte(frameType);
    ValueOfLittle(|body|, 4);
    SmallMod(|body|, U32_LIMIT);
    assert frame[..4] == Little(|body|, 4);
    assert frame[4] == Little(frameType, 1)[0];
  }

  lemma OneByte(v: nat)
    requires v < 256
    ensures |Little(v, 1)| == 1 && Little(v, 1)[0] as nat == v
  {
  }

  /** A request that the source's own add() and edge() could have built. */
  predicate RequestOk(id: nat, r: Request) {
    && id < U64_LIMIT
    && (forall i :: 0 <= i < |r.jobs| ==> r.jobs[i].version < U32_LIMIT)
    && (forall i :: 0 <= i < |r.edges| ==>
          r.edges[i].source < |r.jobs| && r.edges[i].target < |r.jobs| && r.edges[i].source != r.edges[i].target)
  }

  /** The body of a request whose exported bytes are `marks`. */
  function MarkedBody(id: nat, r: Request, marks: seq<nat>): seq<byte>
    requires |marks| == |r.jobs|
  {
    Little(id, 8) + (Little(|r.jobs|, 4) + (MarkedJobs(r.jobs, marks) + (Little(|r.edges|, 4) + EdgesBytes(r.edges))))
  }

  /** A request is read back from any frame that starts with it. */
  lemma GetWrittenRequest(id: nat, r: Request, marks: seq<nat>, tail: seq<byte>)
    requires id < U64_LIMIT && |r.jobs| <= MAX_JOBS && MarksOk(r.jobs, marks)
    requires forall i :: 0 <= i < |r.jobs| ==> JobOk(r.jobs[i])
    requires forall i :: 0 <= i < |r.edges| ==> EdgeOk(|r.jobs|, r.edges[i])
    requires |MarkedBody(id, r, marks) + tail| < U32_LIMIT
    ensures DecodeRequest(FrameOf(REQUEST, MarkedBody(id, r, marks) + tail)) == Some((id, r))
  {
    hide GetLittle, Little, GetJobs, GetEdges, MarkedJobs, EdgesBytes, FrameType, Pow256, FrameOf, JobOk, EdgeOk;
    Widths();
    var edges := EdgesBytes(r.edges) + tail;
    var count := Little(|r.edges|, 4) + edges;
    var jobs := MarkedJobs(r.jobs, marks) + count;
    var body := MarkedBody(id, r, marks) + tail;
    assert body == Little(id, 8) + (Little(|r.jobs|, 4) + jobs);
    FrameIsTyped(REQUEST, body);
    EdgesLength(r.edges);
    assert |edges| <= |body|;
    GetWritten(id, 8, Little(|r.jobs|, 4) + jobs);
    GetWritten(|r.jobs|, 4, jobs);
    GetWrittenJobs(r.jobs, marks, count);
    GetWritten(|r.edges|, 4, edges);
    GetWrittenEdges(r.edges, |r.jobs|, tail);
  }

  /** The payload that is sent for the i-th job or result: an override, where there is one, in place of its own. */
  function SentAt(own: Payload, overrides: seq<Option<Payload>>, i: nat): Payload {
    if i < |overrides| && overrides[i].Some? then overrides[i].value else own
  }

  /** Decoding an encoded request gives it back, overridden inputs in place of the jobs' own, whenever the
      encoder accepts it and its body fits the u32 length. */
  lemma RequestRoundTrip(id: nat, r: Request, overrides: seq<Option<Payload>>)
    requires RequestOk(id, r) && EncodeRequest(id, r, overrides).Some?
    requires |EncodeRequest(id, r, overrides).value| < U32_LIMIT + HEADER_BYTES
    ensures var d := DecodeRequest(EncodeRequest(id, r, overrides).value);
      && d.Some? && d.value.0 == id && d.value.1.edges == r.edges && |d.value.1.jobs| == |r.jobs|
      && forall i {:trigger d.value.1.jobs[i]} :: 0 <= i < |r.jobs| ==>
           d.value.1.jobs[i] == r.jobs[i].(input := SentAt(r.jobs[i].input, overrides, i))
  {
    hide MarkedBody, DecodeRequest, Little, MarkedJobs, JobsBytes, EdgesBytes, MarksOk;
    var sent := Request(WithOverrides(r.jobs, overrides), r.edges);
    var marks := Marks(sent.jobs);
    WrittenMarks(sent.jobs);
    BodyMarked(id, sent);
    var body := RequestBody(id, sent);
    LittleLength(|body|, 4);
    LittleLength(REQUEST, 1);
    forall i | 0 <= i < |sent.jobs| ensures JobOk(sent.jobs[i]) {
      assert Encodable(sent.jobs[i]);
    }
    assert MarkedBody(id, sent, marks) + [] == body;
    GetWrittenRequest(id, sent, marks, []);
  }

  lemma BodyMarked(id: nat, r: Request)
    ensures MarkedBody(id, r, Marks(r.jobs)) == RequestBody(id, r)
  {
    hide Little, MarkedJobs, JobsBytes, EdgesBytes;
    WrittenMarks(r.jobs);
  }

  /** There is a frame exactly for a request of at most 65536 jobs, with no overrides or one place for each job, names
      of at most 65535 bytes, and inputs that fit: 64 bytes for a handle, a u32 length for the rest. */
  lemma EncodesWithinLimits(id: nat, r: Request, overrides: seq<Option<Payload>>)
    ensures EncodeRequest(id, r, overrides).Some? <==>
      && |r.jobs| <= 65536 && (overrides == [] || |overrides| == |r.jobs|)
      && forall i {:trigger r.jobs[i]} :: 0 <= i < |r.jobs| ==>
           |r.jobs[i].name| <= 65535
           && match SentAt(r.jobs[i].input, overrides, i)
              case NoPayload => true
              case Handle(bytes) => |bytes| <= 64
              case Inline(bytes) => |bytes| < 0x1_0000_0000
              case Reference(bytes) => |bytes| < 0x1_0000_0000
  {
    hide RequestBody, FrameOf;
    var jobs := WithOverrides(r.jobs, overrides);
    forall i | 0 <= i < |jobs| ensures jobs[i] == r.jobs[i].(input := SentAt(r.jobs[i].input, overrides, i)) {}
    if exists i :: 0 <= i < |jobs| && !Encodable(jobs[i]) {
      var i :| 0 <= i < |jobs| && !Encodable(jobs[i]);
      assert r.jobs[i] == r.jobs[i];
    } else {
      forall i {:trigger r.jobs[i]} | 0 <= i < |r.jobs| ensures Encodable(jobs[i]) {}
    }
  }

  // ---- Everything that decodes is well formed ----

  predicate DecodedJob(job: JobSpec) {
    |job.name| <= MAX_U16 && job.version < U32_LIMIT && (job.input.Handle? ==> |job.input.bytes| <= MAX_HANDLE_BYTES)
  }

  lemma GetBound(c: Cursor, n: nat)
    ensures GetLittle(c, n).0 < Pow256(n)
  {
    if CanTake(c, n) { ValueBound(c.rest[..n]); }
  }

  lemma JobDecoded(c: Cursor)
    ensures GetJob(c).Some? ==> DecodedJob(GetJob(c).value.0)
  {
    hide GetLittle, GetBlob, Pow256;
    Widths();
    GetBound(c, 2);
    GetBound(GetString(c).1, 4);
  }

  lemma {:induction false} JobsDecoded(c: Cursor, k: nat)
    ensures GetJobs(c, k).Some? ==> |GetJobs(c, k).value.0| == k
    ensures GetJobs(c, k).Some? ==> forall i :: 0 <= i < k ==> DecodedJob(GetJobs(c, k).value.0[i])
  {
    hide GetJob, DecodedJob;
    if k > 0 && GetJobs(c, k - 1).Some? {
      JobsDecoded(c, k - 1);
      JobDecoded(GetJobs(c, k - 1).value.1);
    }
  }

  lemma {:induction false} EdgesDecoded(c: Cursor, n: nat, k: nat)
    ensures GetEdges(c, n, k).Some? ==> |GetEdges(c, n, k).value.0| == k
    ensures GetEdges(c, n, k).Some? ==> forall i :: 0 <= i < k ==> EdgeOk(n, GetEdges(c, n, k).value.0[i])
  {
    hide GetLittle;
    if k > 0 && GetEdges(c, n, k - 1).Some? { EdgesDecoded(c, n, k - 1); }
  }

  /** Whatever bytes arrive: a request that decodes has at most 65536 jobs, handles within their limit, and
      edges between two different jobs of it. */
  lemma DecodedRequestIsWellFormed(frame: seq<byte>)
    requires DecodeRequest(frame).Some?
    ensures var (id, r) := DecodeRequest(frame).value;
      && id < U64_LIMIT && |r.jobs| <= MAX_JOBS
      && (forall i :: 0 <= i < |r.jobs| ==> DecodedJob(r.jobs[i]))
      && (forall i :: 0 <= i < |r.edges| ==>
            r.edges[i].source < |r.jobs| && r.edges[i].target < |r.jobs| && r.edges[i].source != r.edges[i].target)
  {
    hide GetLittle, GetJobs, GetEdges, Pow256, DecodedJob, FrameType;
    Widths();
    var c := BodyOf(frame, REQUEST).value;
    GetBound(c, 8);
    var (n, e) := GetLittle(GetLittle(c, 8).1, 4);
    JobsDecoded(e, n);
    var (jobs, f) := GetJobs(e, n).value;
    var (m, g) := GetLittle(f, 4);
    EdgesDecoded(g, |jobs|, m);
  }
}
