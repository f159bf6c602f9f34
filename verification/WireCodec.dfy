/** The encoder and decoder as the program runs them: a Writer that appends to a buffer, a Reader that advances
    through one, and the loops over jobs, edges, results and offers. Each is what Wire says it is. */
module WireCodec {
  import opened Jobs
  import opened LittleEndian
  import opened Wire
  import opened WireRoundTrips

  class Writer {
    var out: seq<byte>

    /** Space for the length, then the type. */
    constructor (frameType: nat)
      requires frameType < 256
      ensures out == [0, 0, 0, 0] + Little(frameType, 1)
    {
      out := [0, 0, 0, 0, (frameType % 256) as byte];
      new;
      OneByte(frameType);
    }

    method Int(v: nat, n: nat)
      modifies this
      ensures out == old(out) + Little(v, n)
    {
      var rest := v;
      for i := 0 to n
        invariant out + Little(rest, n - i) == old(out) + Little(v, n)
      {
        assert Little(rest, n - i) == [(rest % 256) as byte] + Little(rest / 256, n - i - 1);
        out := out + [(rest % 256) as byte];
        rest := rest / 256;
      }
    }

    method Text(s: seq<byte>)
      modifies this
      ensures out == old(out) + Str(s)
    {
      Int(|s|, 2);
      var start := out;
      for i := 0 to |s|
        invariant out == start + s[..i]
      {
        out := out + [s[i]];
      }
    }

    method Data(b: seq<byte>)
      modifies this
      ensures out == old(out) + Blob(b)
    {
      Int(|b|, 4);
      out := out + b;
    }

    method WritePayload(p: Payload)
      modifies this
      ensures out == old(out) + PayloadBytes(p)
    {
      Int(KindOf(p), 1);
      Data(DataOf(p));
    }

    method WriteJob(job: JobSpec)
      modifies this
      ensures out == old(out) + JobBytes(job)
    {
      Text(job.name);
      Int(job.version, 4);
      Int(if job.exported then 1 else 0, 1);
      WritePayload(job.input);
    }

    method WriteResult(r: JobResult)
      modifies this
      ensures out == old(out) + ResultBytes(r)
    {
      Int(r.status, 1);
      Int(r.error, 1);
      Text(Cut(r.message));
      WritePayload(r.output);
    }

    /** Fills in the length. */
    method Finish(ghost frameType: nat, ghost body: seq<byte>) returns (frame: seq<byte>)
      requires frameType < 256 && out == [0, 0, 0, 0] + Little(frameType, 1) + body
      modifies this
      ensures frame == FrameOf(frameType, body)
    {
      var n: nat := |out| - HEADER_BYTES;
      var rest: nat := n;
      ghost var tail := out[4..];
      OneByte(frameType);
      ghost var length: seq<byte> := [];
      for i := 0 to 4
        invariant |out| == n + HEADER_BYTES && |length| == i && out[..i] == length && out[4..] == tail
        invariant length + Little(rest, 4 - i) == Little(n, 4)
      {
        assert Little(rest, 4 - i) == [(rest % 256) as byte] + Little(rest / 256, 4 - i - 1);
        length := length + [(rest % 256) as byte];
        out := out[i := (rest % 256) as byte];
        rest := rest / 256;
      }
      assert out == out[..4] + out[4..];
      frame := out;
    }
  }

  class Reader {
    const body: seq<byte>
    var pos: nat
    var ok: bool

    ghost predicate Valid()
      reads this
    {
      pos <= |body|
    }

    ghost function Here(): Cursor
      requires Valid()
      reads this
    {
      Cursor(body[pos..], ok)
    }

    constructor (body: seq<byte>)
      ensures Valid() && this.body == body && Here() == Cursor(body, true)
    {
      this.body := body;
      pos := 0;
      ok := true;
    }

    /** Advances over `n` bytes, or latches the failure. */
    method Advance(n: nat) returns (taken: bool)
      requires Valid()
      modifies this
      ensures Valid() && taken == CanTake(old(Here()), n) && Here() == Take(old(Here()), n)
      ensures taken ==> pos == old(pos) + n && pos - n >= 0
      ensures !taken ==> pos == old(pos)
    {
      if !ok || |body| - pos < n {
        ok := false;
        return false;
      }
      pos := pos + n;
      return true;
    }

    method Int(n: nat) returns (v: nat)
      requires Valid()
      modifies this
      ensures Valid() && v == GetLittle(old(Here()), n).0 && Here() == GetLittle(old(Here()), n).1
    {
      var start := pos;
      var taken := Advance(n);
      if !taken { return 0; }
      v := ReadValue(body[start..pos]);
      assert body[start..pos] == old(Here()).rest[..n];
    }

    method Bytes(width: nat) returns (data: seq<byte>)
      requires Valid()
      modifies this
      ensures Valid() && data == GetBytes(old(Here()), width).0 && Here() == GetBytes(old(Here()), width).1
    {
      var n := Int(width);
      var start := pos;
      var taken := Advance(n);
      if !taken { return []; }
      data := body[start..pos];
    }

    method ReadPayload() returns (p: Option<Payload>)
      requires Valid()
      modifies this
      ensures Valid() && p == GetPayload(old(Here())).0 && Here() == GetPayload(old(Here())).1
    {
      var kind := Int(1);
      var data := Bytes(4);
      p := if ok then MakePayload(kind, data) else None;
    }

    method ReadJob() returns (job: Option<JobSpec>)
      requires Valid()
      modifies this
      ensures Valid() && job.Some? == GetJob(old(Here())).Some?
      ensures job.Some? ==> GetJob(old(Here())) == Some((job.value, Here()))
    {
      hide GetLittle, GetBytes, GetPayload;
      var name := Bytes(2);
      var version := Int(4);
      var exported := Int(1);
      var input := ReadPayload();
      job := if !ok || input.None? then None else Some(JobSpec(name, version, exported != 0, input.value));
    }

    /** An edge, refused unless it joins two different jobs below `n`. */
    method ReadEdge(n: nat) returns (edge: Option<Edge>)
      requires Valid()
      modifies this
      ensures Valid() && edge.Some? == GetEdge(old(Here()), n).Some?
      ensures edge.Some? ==> GetEdge(old(Here()), n) == Some((edge.value, Here()))
    {
      hide GetLittle;
      var source := Int(4);
      var target := Int(4);
      edge := if !ok || !EdgeOk(n, Edge(source, target)) then None else Some(Edge(source, target));
    }

    method ReadResult() returns (result: Option<JobResult>)
      requires Valid()
      modifies this
      ensures Valid() && result.Some? == GetResult(old(Here())).Some?
      ensures result.Some? ==> GetResult(old(Here())) == Some((result.value, Here()))
    {
      hide GetLittle, GetBytes, GetPayload;
      var status := Int(1);
      var error := Int(1);
      var message := Bytes(2);
      var output := ReadPayload();
      result := if !ok || output.None? then None else Some(JobResult(status, error, message, output.value));
    }
  }

  // ---- Whole frames ----

  lemma {:induction false} JobsSnoc(jobs: seq<JobSpec>, i: nat)
    requires i < |jobs|
    ensures JobsBytes(jobs[..i + 1]) == JobsBytes(jobs[..i]) + JobBytes(jobs[i])
  {
    assert jobs[..i + 1][..i] == jobs[..i];
  }

  method WriteJobs(w: Writer, jobs: seq<JobSpec>, overrides: seq<Option<Payload>>) returns (ok: bool)
    modifies w
    ensures var sent := WithOverrides(jobs, overrides);
      && ok == (forall i :: 0 <= i < |sent| ==> Encodable(sent[i]))
      && (ok ==> w.out == old(w.out) + JobsBytes(sent))
  {
    hide JobBytes, Encodable;
    ghost var sent := WithOverrides(jobs, overrides);
    for i := 0 to |jobs|
      invariant forall k :: 0 <= k < i ==> Encodable(sent[k])
      invariant w.out == old(w.out) + JobsBytes(sent[..i])
    {
      var job := if i < |overrides| && overrides[i].Some? then jobs[i].(input := overrides[i].value) else jobs[i];
      assert job == sent[i];
      if !Encodable(job) { return false; }
      w.WriteJob(job);
      JobsSnoc(sent, i);
    }
    assert sent[..|jobs|] == sent;
    return true;
  }

  method WriteEdges(w: Writer, edges: seq<Edge>)
    modifies w
    ensures w.out == old(w.out) + EdgesBytes(edges)
  {
    hide Little;
    for i := 0 to |edges|
      invariant w.out == old(w.out) + EdgesBytes(edges[..i])
    {
      w.Int(edges[i].source, 4);
      w.Int(edges[i].target, 4);
      assert edges[..i + 1][..i] == edges[..i];
    }
    assert edges[..|edges|] == edges;
  }

  method EncodeRequestFrame(id: nat, r: Request, overrides: seq<Option<Payload>>) returns (frame: Option<seq<byte>>)
    ensures frame == EncodeRequest(id, r, overrides)
  {
    hide Little, JobsBytes, EdgesBytes, FrameOf, Encodable;
    if |r.jobs| > MAX_JOBS { return None; }
    if overrides != [] && |overrides| != |r.jobs| { return None; }
    var w := new Writer(REQUEST);
    w.Int(id, 8);
    w.Int(|r.jobs|, 4);
    var ok := WriteJobs(w, r.jobs, overrides);
    if !ok { return None; }
    w.Int(|r.edges|, 4);
    WriteEdges(w, r.edges);
    ghost var sent := Request(WithOverrides(r.jobs, overrides), r.edges);
    assert w.out == [0, 0, 0, 0] + Little(REQUEST, 1) + RequestBody(id, sent);
    var f := w.Finish(REQUEST, RequestBody(id, sent));
    return Some(f);
  }

  /** The type of a frame whose length field matches its size. */
  method ReadFrameType(frame: seq<byte>) returns (t: Option<nat>)
    ensures t == FrameType(frame)
  {
    if |frame| < HEADER_BYTES { return None; }
    var n := ReadValue(frame[..4]);
    if n != |frame| - HEADER_BYTES { return None; }
    if !(HELLO <= frame[4] as nat <= PAYLOAD) { return None; }
    return Some(frame[4] as nat);
  }

  lemma {:induction false} JobsStop(c: Cursor, k: nat, n: nat)
    requires k <= n && GetJobs(c, k).None?
    ensures GetJobs(c, n).None?
  {
    hide GetJob;
    if k < n { JobsStop(c, k, n - 1); }
  }

  lemma {:induction false} EdgesStop(c: Cursor, jobs: nat, k: nat, n: nat)
    requires k <= n && GetEdges(c, jobs, k).None?
    ensures GetEdges(c, jobs, n).None?
  {
    hide GetEdge;
    if k < n { EdgesStop(c, jobs, k, n - 1); }
  }

  lemma {:induction false} ResultsStop(c: Cursor, k: nat, n: nat)
    requires k <= n && GetResults(c, k).None?
    ensures GetResults(c, n).None?
  {
    hide GetResult;
    if k < n { ResultsStop(c, k, n - 1); }
  }

  method ReadJobs(r: Reader, n: nat) returns (jobs: Option<seq<JobSpec>>)
    requires r.Valid()
    modifies r
    ensures r.Valid() && jobs.Some? == GetJobs(old(r.Here()), n).Some?
    ensures jobs.Some? ==> GetJobs(old(r.Here()), n) == Some((jobs.value, r.Here()))
  {
    hide GetJob;
    var read: seq<JobSpec> := [];
    ghost var c := r.Here();
    for i := 0 to n
      invariant r.Valid() && GetJobs(c, i) == Some((read, r.Here()))
    {
      var job := r.ReadJob();
      if job.None? {
        JobsStop(c, i + 1, n);
        return None;
      }
      read := read + [job.value];
    }
    return Some(read);
  }

  method ReadEdges(r: Reader, jobs: nat, n: nat) returns (edges: Option<seq<Edge>>)
    requires r.Valid()
    modifies r
    ensures r.Valid() && edges.Some? == GetEdges(old(r.Here()), jobs, n).Some?
    ensures edges.Some? ==> GetEdges(old(r.Here()), jobs, n) == Some((edges.value, r.Here()))
  {
    hide GetEdge;
    var read: seq<Edge> := [];
    ghost var c := r.Here();
    for i := 0 to n
      invariant r.Valid() && GetEdges(c, jobs, i) == Some((read, r.Here()))
    {
      var edge := r.ReadEdge(jobs);
      if edge.None? {
        EdgesStop(c, jobs, i + 1, n);
        return None;
      }
      read := read + [edge.value];
    }
    return Some(read);
  }

  method DecodeRequestFrame(frame: seq<byte>) returns (request: Option<(nat, Request)>)
    ensures request == DecodeRequest(frame)
  {
    hide GetLittle, GetJobs, GetEdges, FrameType;
    var t := ReadFrameType(frame);
    if t != Some(REQUEST) { return None; }
    FrameLongEnough(frame);
    var r := new Reader(frame[HEADER_BYTES..]);
    var id := r.Int(8);
    var n := r.Int(4);
    if !r.ok || n > MAX_JOBS { return None; }
    var jobs := ReadJobs(r, n);
    if jobs.None? { return None; }
    var m := r.Int(4);
    if !r.ok || m > (|r.body| - r.pos) / 8 { return None; }
    var edges := ReadEdges(r, |jobs.value|, m);
    if edges.None? { return None; }
    return Some((id, Request(jobs.value, edges.value)));
  }

  lemma FrameLongEnough(frame: seq<byte>)
    ensures FrameType(frame).Some? ==> |frame| >= HEADER_BYTES
  {
  }

  method EncodeReplyFrame(id: nat, results: seq<JobResult>, overrides: seq<Option<Payload>>) returns (frame: seq<byte>)
    ensures frame == EncodeReply(id, results, overrides)
  {
    hide Little, ResultBytes, FrameOf;
    ghost var sent := WithOutputs(results, overrides);
    var w := new Writer(REPLY);
    w.Int(id, 8);
    w.Int(|results|, 4);
    ghost var head := w.out;
    for i := 0 to |results|
      invariant w.out == head + ResultsBytes(sent[..i])
    {
      var output := if i < |overrides| && overrides[i].Some? then overrides[i].value else results[i].output;
      w.WriteResult(results[i].(output := output));
      assert sent[..i + 1][..i] == sent[..i];
    }
    assert sent[..|results|] == sent;
    assert w.out == [0, 0, 0, 0] + Little(REPLY, 1) + ReplyBody(id, sent);
    frame := w.Finish(REPLY, ReplyBody(id, sent));
  }

  method ReadResults(r: Reader, n: nat) returns (results: Option<seq<JobResult>>)
    requires r.Valid()
    modifies r
    ensures r.Valid() && results.Some? == GetResults(old(r.Here()), n).Some?
    ensures results.Some? ==> GetResults(old(r.Here()), n) == Some((results.value, r.Here()))
  {
    hide GetResult;
    var read: seq<JobResult> := [];
    ghost var c := r.Here();
    for i := 0 to n
      invariant r.Valid() && GetResults(c, i) == Some((read, r.Here()))
    {
      var result := r.ReadResult();
      if result.None? {
        ResultsStop(c, i + 1, n);
        return None;
      }
      read := read + [result.value];
    }
    return Some(read);
  }

  method DecodeReplyFrame(frame: seq<byte>) returns (reply: Option<(nat, seq<JobResult>)>)
    ensures reply == DecodeReply(frame)
  {
    hide GetLittle, GetResults, FrameType;
    var t := ReadFrameType(frame);
    if t != Some(REPLY) { return None; }
    FrameLongEnough(frame);
    var r := new Reader(frame[HEADER_BYTES..]);
    var id := r.Int(8);
    var n := r.Int(4);
    if !r.ok || n > MAX_JOBS { return None; }
    var results := ReadResults(r, n);
    if results.None? { return None; }
    return Some((id, results.value));
  }

  method EncodeHelloFrame(frameType: nat, h: Hello) returns (frame: seq<byte>)
    requires frameType == HELLO || frameType == HELLO_ACK
    ensures frame == EncodeHello(frameType, h)
  {
    hide Little, OffersBytes, OfferBytes, FrameOf;
    var w := new Writer(frameType);
    w.Int(MAGIC, 4);
    w.Int(h.major, 2);
    w.Int(h.minor, 2);
    w.Int(h.fingerprint, 8);
    w.Int(h.maxInFlight, 4);
    w.Int(h.maxInlineBytes, 4);
    if frameType == HELLO {
      w.Int(|FirstOffers(h)|, 1);
      WriteOffers(w, FirstOffers(h));
    } else {
      WriteOffer(w, ChosenOffer(h));
    }
    assert w.out == [0, 0, 0, 0] + Little(frameType, 1) + HelloBody(frameType, h);
    frame := w.Finish(frameType, HelloBody(frameType, h));
  }

  method WriteOffer(w: Writer, o: Offer)
    modifies w
    ensures w.out == old(w.out) + OfferBytes(o)
  {
    w.Text(Cut(o.name));
    w.Data(o.setup);
  }

  method WriteOffers(w: Writer, offers: seq<Offer>)
    modifies w
    ensures w.out == old(w.out) + OffersBytes(offers)
  {
    hide OfferBytes;
    for i := 0 to |offers|
      invariant w.out == old(w.out) + OffersBytes(offers[..i])
    {
      WriteOffer(w, offers[i]);
      assert offers[..i + 1][..i] == offers[..i];
    }
    assert offers[..|offers|] == offers;
  }

  method ReadOffers(r: Reader, n: nat) returns (offers: seq<Offer>)
    requires r.Valid()
    modifies r
    ensures r.Valid() && GetOffers(old(r.Here()), n) == (offers, r.Here())
  {
    hide GetBytes;
    offers := [];
    ghost var c := r.Here();
    for i := 0 to n
      invariant r.Valid() && GetOffers(c, i) == (offers, r.Here())
    {
      var name := r.Bytes(2);
      var setup := r.Bytes(4);
      offers := offers + [Offer(name, setup)];
    }
  }

  method ReadStrategies(r: Reader, frameType: nat) returns (strategies: seq<Offer>)
    requires r.Valid()
    modifies r
    ensures r.Valid() && GetStrategies(frameType, old(r.Here())) == (strategies, r.Here())
  {
    hide GetBytes, GetLittle, GetOffers;
    if frameType == HELLO {
      var count := r.Int(1);
      strategies := ReadOffers(r, count);
    } else {
      var name := r.Bytes(2);
      var setup := r.Bytes(4);
      strategies := if name == [] then [] else [Offer(name, setup)];
    }
  }

  method DecodeHelloFrame(frame: seq<byte>) returns (hello: Option<Hello>)
    ensures hello == DecodeHello(frame)
  {
    hide GetLittle, GetStrategies, FrameType;
    var t := ReadFrameType(frame);
    if t != Some(HELLO) && t != Some(HELLO_ACK) { return None; }
    FrameLongEnough(frame);
    var r := new Reader(frame[HEADER_BYTES..]);
    var magic := r.Int(4);
    if magic != MAGIC { return None; }
    var major := r.Int(2);
    var minor := r.Int(2);
    var fingerprint := r.Int(8);
    var inFlight := r.Int(4);
    var inlineBytes := r.Int(4);
    if !r.ok { return None; }
    var strategies: seq<Offer> := [];
    if minor >= 1 && |r.body| - r.pos > 0 {
      strategies := ReadStrategies(r, t.value);
      if !r.ok { return None; }
    }
    return Some(Hello(major, minor, fingerprint, inFlight, inlineBytes, strategies));
  }
}
