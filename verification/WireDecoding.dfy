/** The other direction: which frames decode, and to what. A frame decodes exactly when it starts with an encoding of
    its value; what follows is skipped. */
module WireDecoding {
  import opened Jobs
  import opened LittleEndian
  import opened Wire
  import opened WireRoundTrips
  import opened WireReplies

  // ---- What a read says about the bytes it read ----

  /** The cursor has moved over `bytes`. */
  predicate Over(c: Cursor, bytes: seq<byte>, d: Cursor) { c.ok && d.ok && c.rest == bytes + d.rest }

  lemma Read(c: Cursor, n: nat)
    requires GetLittle(c, n).1.ok
    ensures var (v, d) := GetLittle(c, n); v < Pow256(n) && Over(c, Little(v, n), d)
  {
    ValueBound(c.rest[..n]);
    LittleOfValue(c.rest[..n]);
  }

  lemma ReadBytes(c: Cursor, width: nat)
    requires GetBytes(c, width).1.ok
    ensures var (s, d) := GetBytes(c, width); |s| < Pow256(width) && Over(c, Little(|s|, width) + s, d)
  {
    hide Little, GetLittle, Pow256;
    var (n, d) := GetLittle(c, width);
    Read(c, width);
    Regroup(Little(n, width), d.rest[..n], d.rest[n..]);
  }

  lemma ReadPayload(c: Cursor)
    requires GetPayload(c).0.Some?
    ensures var (p, d) := GetPayload(c); Over(c, PayloadBytes(p.value), d) && |DataOf(p.value)| < U32_LIMIT && Fits(p.value)
  {
    hide Little, GetLittle, GetBytes, Pow256;
    Widths();
    var (kind, d) := GetLittle(c, 1);
    var (data, e) := GetBlob(d);
    ReadBytes(d, 4);
    Read(c, 1);
    Regroup(Little(kind, 1), Blob(data), e.rest);
  }

  lemma Sticky(c: Cursor, n: nat)
    ensures GetLittle(c, n).1.ok ==> c.ok
    ensures GetBytes(c, n).1.ok ==> c.ok
    ensures GetPayload(c).1.ok ==> c.ok
  {
  }

  lemma ReadJob(c: Cursor) returns (mark: nat)
    requires GetJob(c).Some?
    ensures var (job, d) := GetJob(c).value; Over(c, MarkedJob(job, mark), d) && JobOk(job) && MarkOk(job, mark)
  {
    hide Little, GetLittle, GetBytes, GetPayload, PayloadBytes, Pow256, Str;
    Widths();
    var (name, d) := GetString(c);
    var (version, e) := GetLittle(d, 4);
    var (exported, f) := GetLittle(e, 1);
    var (input, g) := GetPayload(f);
    Sticky(f, 0);
    Sticky(e, 1);
    Sticky(d, 4);
    ReadPayload(f);
    Read(e, 1);
    Read(d, 4);
    ReadString(c);
    mark := exported;
    var job := GetJob(c).value.0;
    assert MarkedJob(job, mark) + g.rest
        == Str(name) + (Little(version, 4) + (Little(exported, 1) + (PayloadBytes(input.value) + g.rest)));
  }

  lemma ReadString(c: Cursor)
    requires GetString(c).1.ok
    ensures var (s, d) := GetString(c); |s| <= MAX_U16 && Over(c, Str(s), d)
  {
    hide Little, GetBytes, Pow256;
    Widths();
    ReadBytes(c, 2);
  }

  lemma {:induction false} ReadJobs(c: Cursor, k: nat) returns (marks: seq<nat>)
    requires c.ok && GetJobs(c, k).Some?
    ensures var (jobs, d) := GetJobs(c, k).value;
      && |jobs| == k && MarksOk(jobs, marks) && Over(c, MarkedJobs(jobs, marks), d)
      && forall i :: 0 <= i < k ==> JobOk(jobs[i])
  {
    hide GetJob, MarkedJob, JobOk, MarkOk;
    marks := [];
    if k > 0 {
      var front := ReadJobs(c, k - 1);
      var (jobs, d) := GetJobs(c, k - 1).value;
      var mark := ReadJob(d);
      var (job, e) := GetJob(d).value;
      marks := front + [mark];
      var all := GetJobs(c, k).value.0;
      assert all[..k - 1] == jobs && marks[..k - 1] == front;
      Regroup(MarkedJobs(jobs, front), MarkedJob(job, mark), e.rest);
    }
  }

  lemma ReadEdge(c: Cursor, n: nat)
    requires GetEdge(c, n).Some?
    ensures var (edge, d) := GetEdge(c, n).value; Over(c, EdgeBytes(edge), d) && EdgeOk(n, edge)
  {
    hide Little, GetLittle, Pow256;
    var (source, d) := GetLittle(c, 4);
    var (target, e) := GetLittle(d, 4);
    Sticky(d, 4);
    Read(c, 4);
    Read(d, 4);
    Regroup(Little(source, 4), Little(target, 4), e.rest);
  }

  lemma {:induction false} ReadEdges(c: Cursor, n: nat, k: nat)
    requires c.ok && GetEdges(c, n, k).Some?
    ensures var (edges, d) := GetEdges(c, n, k).value;
      |edges| == k && Over(c, EdgesBytes(edges), d) && forall i :: 0 <= i < k ==> EdgeOk(n, edges[i])
  {
    hide GetEdge, EdgeBytes, EdgeOk;
    if k > 0 {
      ReadEdges(c, n, k - 1);
      var (edges, d) := GetEdges(c, n, k - 1).value;
      ReadEdge(d, n);
      var (edge, e) := GetEdge(d, n).value;
      var all := GetEdges(c, n, k).value.0;
      assert all[..k - 1] == edges;
      Regroup(EdgesBytes(edges), EdgeBytes(edge), e.rest);
    }
  }

  // ---- Frames ----

  /** A frame has a type exactly when it is that type's frame around some body of a u32 length. */
  lemma FrameOfBody(frame: seq<byte>, frameType: nat)
    ensures FrameType(frame) == Some(frameType) <==>
      && HELLO <= frameType <= PAYLOAD && HEADER_BYTES <= |frame| < U32_LIMIT + HEADER_BYTES
      && frame == FrameOf(frameType, frame[HEADER_BYTES..])
  {
    hide Little, Value, Pow256;
    Widths();
    if FrameType(frame) == Some(frameType) {
      LittleOfValue(frame[..4]);
      ValueBound(frame[..4]);
      OneByte(frameType);
      assert frame == frame[..4] + ([frame[4]] + frame[HEADER_BYTES..]);
    } else if HELLO <= frameType <= PAYLOAD && HEADER_BYTES <= |frame| < U32_LIMIT + HEADER_BYTES
              && frame == FrameOf(frameType, frame[HEADER_BYTES..]) {
      FrameIsTyped(frameType, frame[HEADER_BYTES..]);
    }
  }

  /** The frame holds an encoding of the request, its exported bytes being `marks`, and then `tail`. */
  ghost predicate HoldsRequest(frame: seq<byte>, id: nat, r: Request, marks: seq<nat>, tail: seq<byte>) {
    && MarksOk(r.jobs, marks) && |MarkedBody(id, r, marks) + tail| < U32_LIMIT
    && frame == FrameOf(REQUEST, MarkedBody(id, r, marks) + tail)
  }

  /** A request within the limits: at most 65536 jobs, names and inputs that fit, edges between two different jobs. */
  ghost predicate InLimits(id: nat, r: Request) {
    && id < U64_LIMIT && |r.jobs| <= 65536
    && (forall i {:trigger r.jobs[i]} :: 0 <= i < |r.jobs| ==>
          && |r.jobs[i].name| <= 65535 && r.jobs[i].version < U32_LIMIT
          && |DataOf(r.jobs[i].input)| < U32_LIMIT && (r.jobs[i].input.Handle? ==> |r.jobs[i].input.bytes| <= 64))
    && (forall i {:trigger r.edges[i]} :: 0 <= i < |r.edges| ==>
          r.edges[i].source < |r.jobs| && r.edges[i].target < |r.jobs| && r.edges[i].source != r.edges[i].target)
  }

  lemma DecodedRequest(frame: seq<byte>) returns (marks: seq<nat>, tail: seq<byte>)
    requires DecodeRequest(frame).Some?
    ensures var (id, r) := DecodeRequest(frame).value; InLimits(id, r) && HoldsRequest(frame, id, r, marks, tail)
  {
    hide GetLittle, Little, GetJobs, GetEdges, MarkedJobs, EdgesBytes, FrameType, Pow256, MarksOk, FrameOf;
    Widths();
    var c := BodyOf(frame, REQUEST).value;
    FrameOfBody(frame, REQUEST);
    var (id, d) := GetLittle(c, 8);
    var (n, e) := GetLittle(d, 4);
    Sticky(d, 4);
    Read(c, 8);
    Read(d, 4);
    marks := ReadJobs(e, n);
    var (jobs, f) := GetJobs(e, n).value;
    var (m, g) := GetLittle(f, 4);
    Read(f, 4);
    ReadEdges(g, |jobs|, m);
    var (edges, h) := GetEdges(g, |jobs|, m).value;
    tail := h.rest;
    var r := Request(jobs, edges);
    MarksLength(jobs, marks);
    assert MarkedBody(id, r, marks) + tail
        == Little(id, 8) + (Little(n, 4) + (MarkedJobs(jobs, marks) + (Little(m, 4) + (EdgesBytes(edges) + tail))));
    FrameLength(frame);
  }

  lemma MarksLength(jobs: seq<JobSpec>, marks: seq<nat>)
    requires MarksOk(jobs, marks)
    ensures |marks| == |jobs|
  {
  }

  lemma FrameLength(frame: seq<byte>)
    requires FrameType(frame).Some?
    ensures HEADER_BYTES <= |frame| < U32_LIMIT + HEADER_BYTES
  {
    FrameOfBody(frame, FrameType(frame).value);
  }

  /** A frame decodes to a request exactly when the request is within the limits and the frame starts with its encoding,
      where any byte but 0 means exported; whatever follows is ignored. */
  lemma DecodesExactly(frame: seq<byte>, id: nat, r: Request)
    ensures DecodeRequest(frame) == Some((id, r)) <==>
      InLimits(id, r) && exists marks, tail :: HoldsRequest(frame, id, r, marks, tail)
  {
    hide DecodeRequest, MarkedBody, FrameOf, MarksOk;
    if DecodeRequest(frame) == Some((id, r)) {
      var marks, tail := DecodedRequest(frame);
    }
    if InLimits(id, r) && exists marks, tail :: HoldsRequest(frame, id, r, marks, tail) {
      var marks, tail :| HoldsRequest(frame, id, r, marks, tail);
      GetWrittenRequest(id, r, marks, tail);
    }
  }

  // ---- Replies ----

  lemma ReadResult(c: Cursor)
    requires GetResult(c).Some?
    ensures var (r, d) := GetResult(c).value;
      Over(c, ResultBytes(r), d) && ResultOk(r) && Fits(r.output) && |r.message| <= MAX_U16
  {
    hide Little, GetLittle, GetBytes, GetPayload, PayloadBytes, Pow256, Str;
    Widths();
    var (status, d) := GetLittle(c, 1);
    var (error, e) := GetLittle(d, 1);
    var (message, f) := GetString(e);
    var (output, g) := GetPayload(f);
    Sticky(f, 0);
    Sticky(e, 2);
    Sticky(d, 1);
    ReadPayload(f);
    ReadString(e);
    Read(d, 1);
    Read(c, 1);
    assert ResultBytes(GetResult(c).value.0) + g.rest
        == Little(status, 1) + (Little(error, 1) + (Str(message) + (PayloadBytes(output.value) + g.rest)));
  }

  lemma {:induction false} ReadResults(c: Cursor, k: nat)
    requires c.ok && GetResults(c, k).Some?
    ensures var (results, d) := GetResults(c, k).value;
      && |results| == k && Over(c, ResultsBytes(results), d)
      && forall i :: 0 <= i < k ==> ResultOk(results[i]) && Fits(results[i].output) && |results[i].message| <= MAX_U16
  {
    hide GetResult, ResultBytes, ResultOk, Fits;
    if k > 0 {
      ReadResults(c, k - 1);
      var (results, d) := GetResults(c, k - 1).value;
      ReadResult(d);
      var (result, e) := GetResult(d).value;
      var all := GetResults(c, k).value.0;
      assert all[..k - 1] == results;
      Regroup(ResultsBytes(results), ResultBytes(result), e.rest);
    }
  }

  ghost predicate ResultsInLimits(id: nat, results: seq<JobResult>) {
    && id < U64_LIMIT && |results| <= 65536
    && forall i {:trigger results[i]} :: 0 <= i < |results| ==>
         && results[i].status < 256 && results[i].error < 256 && |results[i].message| <= 65535
         && |DataOf(results[i].output)| < U32_LIMIT && (results[i].output.Handle? ==> |results[i].output.bytes| <= 64)
  }

  ghost predicate HoldsReply(frame: seq<byte>, id: nat, results: seq<JobResult>, tail: seq<byte>) {
    |ReplyBody(id, results) + tail| < U32_LIMIT && frame == FrameOf(REPLY, ReplyBody(id, results) + tail)
  }

  lemma DecodedReply(frame: seq<byte>) returns (tail: seq<byte>)
    requires DecodeReply(frame).Some?
    ensures var (id, results) := DecodeReply(frame).value; ResultsInLimits(id, results) && HoldsReply(frame, id, results, tail)
  {
    hide GetLittle, Little, GetResults, ResultsBytes, FrameType, Pow256, FrameOf;
    Widths();
    var c := BodyOf(frame, REPLY).value;
    FrameOfBody(frame, REPLY);
    FrameLength(frame);
    var (id, d) := GetLittle(c, 8);
    var (n, e) := GetLittle(d, 4);
    Sticky(d, 4);
    Read(c, 8);
    Read(d, 4);
    ReadResults(e, n);
    var (results, f) := GetResults(e, n).value;
    tail := f.rest;
    assert ReplyBody(id, results) + tail == Little(id, 8) + (Little(n, 4) + (ResultsBytes(results) + tail));
  }

  lemma ReadReply(id: nat, results: seq<JobResult>, tail: seq<byte>)
    requires ResultsInLimits(id, results) && |ReplyBody(id, results) + tail| < U32_LIMIT
    ensures DecodeReply(FrameOf(REPLY, ReplyBody(id, results) + tail)) == Some((id, results))
  {
    hide GetLittle, Little, GetResults, ResultsBytes, FrameType, Pow256, FrameOf;
    Widths();
    var body := ReplyBody(id, results) + tail;
    var rest := ResultsBytes(results) + tail;
    assert body == Little(id, 8) + (Little(|results|, 4) + rest);
    FrameIsTyped(REPLY, body);
    GetWritten(id, 8, Little(|results|, 4) + rest);
    GetWritten(|results|, 4, rest);
    forall i | 0 <= i < |results| ensures ResultOk(results[i]) && Fits(results[i].output) { assert results[i] == results[i]; }
    GetWrittenResults(results, tail);
    CutKeeps(results);
  }

  /** A frame decodes to a reply exactly when the results are within the limits and the frame starts with their
      encoding. */
  lemma RepliesExactly(frame: seq<byte>, id: nat, results: seq<JobResult>)
    ensures DecodeReply(frame) == Some((id, results)) <==>
      ResultsInLimits(id, results) && exists tail :: HoldsReply(frame, id, results, tail)
  {
    hide DecodeReply, ReplyBody, FrameOf;
    if DecodeReply(frame) == Some((id, results)) {
      var tail := DecodedReply(frame);
    }
    if ResultsInLimits(id, results) && exists tail :: HoldsReply(frame, id, results, tail) {
      var tail :| HoldsReply(frame, id, results, tail);
      ReadReply(id, results, tail);
    }
  }

  // ---- Handshakes ----

  lemma Keeps(c: Cursor, k: nat)
    ensures GetOffers(c, k).1.ok ==> c.ok
  {
    if k > 0 { Keeps(c, k - 1); }
  }

  lemma ReadOffer(c: Cursor)
    requires GetBlob(GetString(c).1).1.ok
    ensures var (name, d) := GetString(c); var (setup, e) := GetBlob(d);
      |name| <= MAX_U16 && |setup| < U32_LIMIT && d.ok && Over(c, OfferBytes(Offer(name, setup)), e)
  {
    hide Little, GetLittle, GetBytes, Pow256;
    Widths();
    var (name, d) := GetString(c);
    var (setup, e) := GetBlob(d);
    Sticky(d, 4);
    ReadString(c);
    ReadBytes(d, 4);
    Regroup(Str(name), Blob(setup), e.rest);
  }

  predicate OfferFits(o: Offer) { |o.name| <= 65535 && |o.setup| < U32_LIMIT }

  lemma {:induction false} ReadOffers(c: Cursor, k: nat)
    requires c.ok && GetOffers(c, k).1.ok
    ensures var (offers, d) := GetOffers(c, k);
      |offers| == k && Over(c, OffersBytes(offers), d) && forall i :: 0 <= i < k ==> OfferFits(offers[i])
  {
    hide GetBytes, OfferBytes;
    if k > 0 {
      var (offers, d) := GetOffers(c, k - 1);
      Sticky(GetString(d).1, 4);
      Sticky(d, 2);
      ReadOffers(c, k - 1);
      ReadOffer(d);
      var all := GetOffers(c, k).0;
      assert all[..k - 1] == offers;
      Regroup(OffersBytes(offers), OfferBytes(all[k - 1]), GetOffers(c, k).1.rest);
    }
  }

  /** The fields that every version has. */
  function HelloHead(h: Hello): seq<byte> {
    Little(MAGIC, 4) + (Little(h.major, 2) + (Little(h.minor, 2) + (Little(h.fingerprint, 8)
    + (Little(h.maxInFlight, 4) + Little(h.maxInlineBytes, 4)))))
  }

  ghost predicate HelloInLimits(h: Hello) {
    && h.major <= 65535 && h.minor <= 65535 && h.fingerprint < U64_LIMIT
    && h.maxInFlight < U32_LIMIT && h.maxInlineBytes < U32_LIMIT
  }

  /** `field` says which strategies come with a hello, or which one with an ack; an empty name stands for none. */
  ghost predicate HoldsStrategies(frameType: nat, strategies: seq<Offer>, field: seq<byte>) {
    if frameType == HELLO then
      && |strategies| <= 255 && (forall i :: 0 <= i < |strategies| ==> OfferFits(strategies[i]))
      && field == Little(|strategies|, 1) + OffersBytes(strategies)
    else
      exists o :: OfferFits(o) && field == OfferBytes(o) && strategies == if o.name == [] then [] else [o]
  }

  /** The frame holds the hello's fields; from minor version 1 on either nothing more or its strategies and then
      whatever a later version adds; before that, whatever follows counts for nothing. */
  ghost predicate HoldsHello(frame: seq<byte>, frameType: nat, h: Hello, field: seq<byte>, tail: seq<byte>) {
    && |HelloHead(h) + (field + tail)| < U32_LIMIT && frame == FrameOf(frameType, HelloHead(h) + (field + tail))
    && if h.minor == 0 then h.strategies == []
       else (h.strategies == [] && field + tail == []) || HoldsStrategies(frameType, h.strategies, field)
  }

  lemma ReadStrategies(frameType: nat, c: Cursor) returns (field: seq<byte>)
    requires c.ok && GetStrategies(frameType, c).1.ok
    ensures var (strategies, d) := GetStrategies(frameType, c);
      Over(c, field, d) && HoldsStrategies(frameType, strategies, field)
  {
    hide GetLittle, GetBytes, GetOffers, OffersBytes, OfferBytes, Little, Pow256;
    Widths();
    var (strategies, e) := GetStrategies(frameType, c);
    if frameType == HELLO {
      var (count, d) := GetLittle(c, 1);
      Keeps(d, count);
      Read(c, 1);
      ReadOffers(d, count);
      field := Little(count, 1) + OffersBytes(strategies);
      Regroup(Little(count, 1), OffersBytes(strategies), e.rest);
    } else {
      ReadOffer(c);
      var o := Offer(GetString(c).0, GetBlob(GetString(c).1).0);
      field := OfferBytes(o);
      assert OfferFits(o);
    }
  }

  lemma WrittenStrategies(frameType: nat, strategies: seq<Offer>, field: seq<byte>, tail: seq<byte>)
    requires HoldsStrategies(frameType, strategies, field)
    ensures GetStrategies(frameType, Cursor(field + tail, true)) == (strategies, Cursor(tail, true)) && |field| > 0
  {
    hide GetLittle, GetBytes, GetOffers, OffersBytes, OfferBytes, Little, Pow256;
    Widths();
    if frameType == HELLO {
      var n := |strategies|;
      LittleLength(n, 1);
      Regroup(Little(n, 1), OffersBytes(strategies), tail);
      GetWritten(n, 1, OffersBytes(strategies) + tail);
      GetWrittenOffers(strategies, tail);
      assert CutOffers(strategies) == strategies;
    } else {
      var o :| OfferFits(o) && field == OfferBytes(o) && strategies == if o.name == [] then [] else [o];
      OfferNonEmpty(o);
      GetWrittenOffer(o, tail);
    }
  }

  lemma HeadThen(h: Hello, more: seq<byte>)
    ensures HelloHead(h) + more
         == Little(MAGIC, 4) + (Little(h.major, 2) + (Little(h.minor, 2) + (Little(h.fingerprint, 8)
          + (Little(h.maxInFlight, 4) + (Little(h.maxInlineBytes, 4) + more)))))
  {
    hide Little;
  }

  lemma DecodedHello(frame: seq<byte>, h: Hello) returns (frameType: nat, field: seq<byte>, tail: seq<byte>)
    requires DecodeHello(frame) == Some(h)
    ensures FrameType(frame) == Some(frameType) && (frameType == HELLO || frameType == HELLO_ACK)
    ensures HelloInLimits(h) && HoldsHello(frame, frameType, h, field, tail)
  {
    hide GetLittle, Little, GetStrategies, FrameType, Pow256, FrameOf, HoldsStrategies, HelloHead;
    Widths();
    frameType := FrameType(frame).value;
    FrameOfBody(frame, frameType);
    var c0 := Cursor(frame[HEADER_BYTES..], true);
    var (magic, c) := GetLittle(c0, 4);
    var (major, d) := GetLittle(c, 2);
    var (minor, e) := GetLittle(d, 2);
    var (fingerprint, f) := GetLittle(e, 8);
    var (inFlight, g) := GetLittle(f, 4);
    var (inlineBytes, i) := GetLittle(g, 4);
    Sticky(g, 4);
    Sticky(f, 4);
    Sticky(e, 8);
    Sticky(d, 2);
    Sticky(c, 2);
    Read(c0, 4);
    Read(c, 2);
    Read(d, 2);
    Read(e, 8);
    Read(f, 4);
    Read(g, 4);
    field, tail := [], i.rest;
    if h.minor >= 1 && |i.rest| > 0 {
      field := ReadStrategies(frameType, i);
      tail := GetStrategies(frameType, i).1.rest;
    }
    assert field + tail == i.rest;
    HeadThen(h, field + tail);
  }

  lemma ReadHello(frame: seq<byte>, frameType: nat, h: Hello, field: seq<byte>, tail: seq<byte>)
    requires (frameType == HELLO || frameType == HELLO_ACK) && HelloInLimits(h)
    requires HoldsHello(frame, frameType, h, field, tail)
    ensures FrameType(frame) == Some(frameType) && DecodeHello(frame) == Some(h)
  {
    hide GetLittle, Little, FrameType, FrameOf, Pow256, GetStrategies, HoldsStrategies, HelloHead;
    Widths();
    var b := Little(h.maxInlineBytes, 4) + (field + tail);
    var a := Little(h.maxInFlight, 4) + b;
    var f := Little(h.fingerprint, 8) + a;
    var m := Little(h.minor, 2) + f;
    var j := Little(h.major, 2) + m;
    HeadThen(h, field + tail);
    FrameIsTyped(frameType, Little(MAGIC, 4) + j);
    GetWritten(MAGIC, 4, j);
    GetWritten(h.major, 2, m);
    GetWritten(h.minor, 2, f);
    GetWritten(h.fingerprint, 8, a);
    GetWritten(h.maxInFlight, 4, b);
    GetWritten(h.maxInlineBytes, 4, field + tail);
    if h.minor >= 1 && HoldsStrategies(frameType, h.strategies, field) {
      WrittenStrategies(frameType, h.strategies, field, tail);
    }
  }

  /** A frame decodes to a hello exactly when it is a hello or hello-ack frame that holds it; what a later minor version
      appends is ignored. */
  lemma HellosExactly(frame: seq<byte>, h: Hello)
    ensures DecodeHello(frame) == Some(h) <==>
      HelloInLimits(h) && exists frameType, field, tail :: (frameType == HELLO || frameType == HELLO_ACK)
                                                           && HoldsHello(frame, frameType, h, field, tail)
  {
    hide DecodeHello, HoldsHello, FrameType;
    if DecodeHello(frame) == Some(h) {
      var frameType, field, tail := DecodedHello(frame, h);
    }
    if HelloInLimits(h) && exists frameType, field, tail :: (frameType == HELLO || frameType == HELLO_ACK)
                                                           && HoldsHello(frame, frameType, h, field, tail) {
      var frameType, field, tail :| (frameType == HELLO || frameType == HELLO_ACK)
                                    && HoldsHello(frame, frameType, h, field, tail);
      ReadHello(frame, frameType, h, field, tail);
    }
  }

  // ---- Cancels and rejections ----

  ghost predicate Holds(frame: seq<byte>, frameType: nat, body: seq<byte>, tail: seq<byte>) {
    |body + tail| < U32_LIMIT && frame == FrameOf(frameType, body + tail)
  }

  lemma CancelsExactly(frame: seq<byte>, id: nat)
    ensures DecodeCancel(frame) == Some(id) <==> id < U64_LIMIT && exists tail :: Holds(frame, CANCEL, Little(id, 8), tail)
  {
    hide GetLittle, Little, FrameType, FrameOf, Pow256;
    Widths();
    FrameOfBody(frame, CANCEL);
    if DecodeCancel(frame) == Some(id) {
      var c := BodyOf(frame, CANCEL).value;
      Read(c, 8);
      assert Holds(frame, CANCEL, Little(id, 8), GetLittle(c, 8).1.rest);
    }
    if id < U64_LIMIT && exists tail :: Holds(frame, CANCEL, Little(id, 8), tail) {
      var tail :| Holds(frame, CANCEL, Little(id, 8), tail);
      FrameIsTyped(CANCEL, Little(id, 8) + tail);
      GetWritten(id, 8, tail);
    }
  }

  lemma RejectsExactly(frame: seq<byte>, reason: nat, detail: seq<byte>)
    ensures DecodeReject(frame) == Some((reason, detail)) <==>
      && reason < 256 && |detail| <= 65535
      && exists tail :: Holds(frame, HELLO_REJECT, Little(reason, 1) + Str(detail), tail)
  {
    hide GetLittle, GetBytes, Little, Str, FrameType, FrameOf, Pow256;
    Widths();
    FrameOfBody(frame, HELLO_REJECT);
    if DecodeReject(frame) == Some((reason, detail)) {
      var c := BodyOf(frame, HELLO_REJECT).value;
      var d := GetLittle(c, 1).1;
      Sticky(d, 2);
      Read(c, 1);
      ReadString(d);
      var tail := GetString(d).1.rest;
      Regroup(Little(reason, 1), Str(detail), tail);
      assert Holds(frame, HELLO_REJECT, Little(reason, 1) + Str(detail), tail);
    }
    if reason < 256 && |detail| <= 65535
       && exists tail :: Holds(frame, HELLO_REJECT, Little(reason, 1) + Str(detail), tail) {
      var tail :| Holds(frame, HELLO_REJECT, Little(reason, 1) + Str(detail), tail);
      Regroup(Little(reason, 1), Str(detail), tail);
      FrameIsTyped(HELLO_REJECT, Little(reason, 1) + Str(detail) + tail);
      GetWritten(reason, 1, Str(detail) + tail);
      GetWrittenString(detail, tail);
    }
  }
}
