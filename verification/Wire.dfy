/** The frames of the remote protocol: what encoding writes and decoding reads, as functions. */
module Wire {
  import opened Jobs
  import opened LittleEndian

  const MAX_JOBS: nat := 65536
  const MAX_HANDLE_BYTES: nat := 64
  const MAX_U16: nat := 0xFFFF

  const HELLO: nat := 1
  const HELLO_ACK: nat := 2
  const HELLO_REJECT: nat := 3
  const REQUEST: nat := 4
  const REPLY: nat := 5
  const CANCEL: nat := 6
  const PAYLOAD: nat := 7
  const MAGIC: nat := 0x4C50_3053

  datatype Payload = NoPayload | Inline(bytes: seq<byte>) | Handle(bytes: seq<byte>) | Reference(bytes: seq<byte>)

  function KindOf(p: Payload): nat {
    match p
    case NoPayload => 0
    case Inline(_) => 1
    case Handle(_) => 2
    case Reference(_) => 3
  }

  function DataOf(p: Payload): seq<byte> { if p.NoPayload? then [] else p.bytes }

  /** fits(): the limits encodeRequest() checks. */
  predicate Fits(p: Payload) {
    if p.Handle? then |p.bytes| <= MAX_HANDLE_BYTES else |DataOf(p)| < U32_LIMIT
  }

  datatype JobSpec = JobSpec(name: seq<byte>, version: nat, exported: bool, input: Payload)
  datatype Edge = Edge(source: nat, target: nat)
  datatype Request = Request(jobs: seq<JobSpec>, edges: seq<Edge>)

  /** Status and error travel as their enumerators' byte values. */
  datatype JobResult = JobResult(status: nat, error: nat, message: seq<byte>, output: Payload)

  datatype Offer = Offer(name: seq<byte>, setup: seq<byte>)
  datatype Hello = Hello(major: nat, minor: nat, fingerprint: nat, maxInFlight: nat, maxInlineBytes: nat,
                         strategies: seq<Offer>)

  // ---- Writing ----

  function FrameOf(frameType: nat, body: seq<byte>): seq<byte> {
    Little(|body|, 4) + (Little(frameType, 1) + body)
  }

  function Str(s: seq<byte>): seq<byte> { Little(|s|, 2) + s }
  function Blob(b: seq<byte>): seq<byte> { Little(|b|, 4) + b }
  function PayloadBytes(p: Payload): seq<byte> { Little(KindOf(p), 1) + Blob(DataOf(p)) }

  /** A job whose exported byte is `mark`. */
  function MarkedJob(job: JobSpec, mark: nat): seq<byte> {
    Str(job.name) + (Little(job.version, 4) + (Little(mark, 1) + PayloadBytes(job.input)))
  }

  function JobBytes(job: JobSpec): seq<byte> { MarkedJob(job, if job.exported then 1 else 0) }

  function EdgeBytes(e: Edge): seq<byte> { Little(e.source, 4) + Little(e.target, 4) }

  function ResultBytes(r: JobResult): seq<byte> {
    Little(r.status, 1) + (Little(r.error, 1) + (Str(Cut(r.message)) + PayloadBytes(r.output)))
  }

  function OfferBytes(o: Offer): seq<byte> { Str(Cut(o.name)) + Blob(o.setup) }

  /** The part of a text that a u16 length can announce. */
  function Cut(s: seq<byte>): seq<byte> { if |s| > MAX_U16 then s[..MAX_U16] else s }

  function JobsBytes(jobs: seq<JobSpec>): seq<byte> {
    if jobs == [] then [] else JobsBytes(jobs[..|jobs| - 1]) + JobBytes(jobs[|jobs| - 1])
  }
  function EdgesBytes(edges: seq<Edge>): seq<byte> {
    if edges == [] then [] else EdgesBytes(edges[..|edges| - 1]) + EdgeBytes(edges[|edges| - 1])
  }
  function ResultsBytes(results: seq<JobResult>): seq<byte> {
    if results == [] then [] else ResultsBytes(results[..|results| - 1]) + ResultBytes(results[|results| - 1])
  }
  function OffersBytes(offers: seq<Offer>): seq<byte> {
    if offers == [] then [] else OffersBytes(offers[..|offers| - 1]) + OfferBytes(offers[|offers| - 1])
  }

  predicate Encodable(job: JobSpec) { |job.name| <= MAX_U16 && Fits(job.input) }

  /** The jobs with the inputs that are sent: an override replaces a job's own. */
  function WithOverrides(jobs: seq<JobSpec>, overrides: seq<Option<Payload>>): (r: seq<JobSpec>)
    ensures |r| == |jobs|
  {
    seq(|jobs|, i requires 0 <= i < |jobs| =>
      if i < |overrides| && overrides[i].Some? then jobs[i].(input := overrides[i].value) else jobs[i])
  }

  function RequestBody(id: nat, r: Request): seq<byte> {
    Little(id, 8) + (Little(|r.jobs|, 4) + (JobsBytes(r.jobs) + (Little(|r.edges|, 4) + EdgesBytes(r.edges))))
  }

  function EncodeRequest(id: nat, r: Request, overrides: seq<Option<Payload>>): Option<seq<byte>> {
    var jobs := WithOverrides(r.jobs, overrides);
    if |r.jobs| > MAX_JOBS || (overrides != [] && |overrides| != |r.jobs|) then None
    else if exists i :: 0 <= i < |jobs| && !Encodable(jobs[i]) then None
    else Some(FrameOf(REQUEST, RequestBody(id, Request(jobs, r.edges))))
  }

  function ReplyBody(id: nat, results: seq<JobResult>): seq<byte> {
    Little(id, 8) + (Little(|results|, 4) + ResultsBytes(results))
  }

  /** The results with the outputs that are sent; there may be fewer overrides than results. */
  function WithOutputs(results: seq<JobResult>, overrides: seq<Option<Payload>>): (r: seq<JobResult>)
    ensures |r| == |results|
  {
    seq(|results|, i requires 0 <= i < |results| =>
      if i < |overrides| && overrides[i].Some? then results[i].(output := overrides[i].value) else results[i])
  }

  function EncodeReply(id: nat, results: seq<JobResult>, overrides: seq<Option<Payload>>): seq<byte> {
    FrameOf(REPLY, ReplyBody(id, WithOutputs(results, overrides)))
  }

  function FirstOffers(h: Hello): seq<Offer> {
    if |h.strategies| > 255 then h.strategies[..255] else h.strategies
  }

  function ChosenOffer(h: Hello): Offer {
    if h.strategies == [] then Offer([], []) else h.strategies[0]
  }

  function HelloBody(frameType: nat, h: Hello): seq<byte> {
    Little(MAGIC, 4) + (Little(h.major, 2) + (Little(h.minor, 2) + (Little(h.fingerprint, 8)
    + (Little(h.maxInFlight, 4) + (Little(h.maxInlineBytes, 4)
    + (if frameType == HELLO then Little(|FirstOffers(h)|, 1) + OffersBytes(FirstOffers(h))
       else OfferBytes(ChosenOffer(h))))))))
  }

  function EncodeHello(frameType: nat, h: Hello): seq<byte> { FrameOf(frameType, HelloBody(frameType, h)) }

  // ---- Reading ----

  /** What is left to read; once a read fails every later one does. */
  datatype Cursor = Cursor(rest: seq<byte>, ok: bool)

  predicate CanTake(c: Cursor, n: nat) { c.ok && |c.rest| >= n }

  function Take(c: Cursor, n: nat): Cursor {
    if CanTake(c, n) then Cursor(c.rest[n..], true) else c.(ok := false)
  }

  function GetLittle(c: Cursor, n: nat): (nat, Cursor) {
    (if CanTake(c, n) then Value(c.rest[..n]) else 0, Take(c, n))
  }

  function GetBytes(c: Cursor, width: nat): (seq<byte>, Cursor) {
    var (n, d) := GetLittle(c, width);
    (if CanTake(d, n) then d.rest[..n] else [], Take(d, n))
  }

  function GetString(c: Cursor): (seq<byte>, Cursor) { GetBytes(c, 2) }
  function GetBlob(c: Cursor): (seq<byte>, Cursor) { GetBytes(c, 4) }

  /** The payload a kind byte and its data make, if the format allows it. */
  function MakePayload(kind: nat, data: seq<byte>): Option<Payload> {
    if kind == 0 then (if data == [] then Some(NoPayload) else None)
    else if kind == 1 then Some(Inline(data))
    else if kind == 2 then (if |data| > MAX_HANDLE_BYTES then None else Some(Handle(data)))
    else if kind == 3 then Some(Reference(data))
    else None
  }

  function GetPayload(c: Cursor): (Option<Payload>, Cursor) {
    var (kind, d) := GetLittle(c, 1);
    var (data, e) := GetBlob(d);
    (if e.ok then MakePayload(kind, data) else None, e)
  }

  function GetJob(c: Cursor): Option<(JobSpec, Cursor)> {
    var (name, d) := GetString(c);
    var (version, e) := GetLittle(d, 4);
    var (exported, f) := GetLittle(e, 1);
    var (input, g) := GetPayload(f);
    if !g.ok || input.None? then None else Some((JobSpec(name, version, exported != 0, input.value), g))
  }

  predicate EdgeOk(n: nat, e: Edge) { e.source < n && e.target < n && e.source != e.target }

  function GetEdge(c: Cursor, n: nat): Option<(Edge, Cursor)> {
    var (source, d) := GetLittle(c, 4);
    var (target, e) := GetLittle(d, 4);
    if !e.ok || !EdgeOk(n, Edge(source, target)) then None else Some((Edge(source, target), e))
  }

  function GetResult(c: Cursor): Option<(JobResult, Cursor)> {
    var (status, d) := GetLittle(c, 1);
    var (error, e) := GetLittle(d, 1);
    var (message, f) := GetString(e);
    var (output, g) := GetPayload(f);
    if !g.ok || output.None? then None else Some((JobResult(status, error, message, output.value), g))
  }

  /** `k` jobs one after another. */
  function GetJobs(c: Cursor, k: nat): Option<(seq<JobSpec>, Cursor)> {
    if k == 0 then Some(([], c))
    else
      match GetJobs(c, k - 1)
      case None => None
      case Some((jobs, d)) =>
        match GetJob(d)
        case None => None
        case Some((job, e)) => Some((jobs + [job], e))
  }

  function GetEdges(c: Cursor, n: nat, k: nat): Option<(seq<Edge>, Cursor)> {
    if k == 0 then Some(([], c))
    else
      match GetEdges(c, n, k - 1)
      case None => None
      case Some((edges, d)) =>
        match GetEdge(d, n)
        case None => None
        case Some((edge, e)) => Some((edges + [edge], e))
  }

  function GetResults(c: Cursor, k: nat): Option<(seq<JobResult>, Cursor)> {
    if k == 0 then Some(([], c))
    else
      match GetResults(c, k - 1)
      case None => None
      case Some((results, d)) =>
        match GetResult(d)
        case None => None
        case Some((result, e)) => Some((results + [result], e))
  }

  /** `k` offers; a failed read shows in the cursor only. */
  function GetOffers(c: Cursor, k: nat): (seq<Offer>, Cursor) {
    if k == 0 then ([], c)
    else
      var (offers, d) := GetOffers(c, k - 1);
      var (name, e) := GetString(d);
      var (setup, f) := GetBlob(e);
      (offers + [Offer(name, setup)], f)
  }

  function FrameType(frame: seq<byte>): Option<nat> {
    if |frame| < HEADER_BYTES || Value(frame[..4]) != |frame| - HEADER_BYTES then None
    else if HELLO <= frame[4] as nat <= PAYLOAD then Some(frame[4] as nat)
    else None
  }

  function BodyOf(frame: seq<byte>, frameType: nat): Option<Cursor> {
    if FrameType(frame) == Some(frameType) then Some(Cursor(frame[HEADER_BYTES..], true)) else None
  }

  function DecodeRequest(frame: seq<byte>): Option<(nat, Request)> {
    match BodyOf(frame, REQUEST)
    case None => None
    case Some(c) =>
      var (id, d) := GetLittle(c, 8);
      var (n, e) := GetLittle(d, 4);
      if !e.ok || n > MAX_JOBS then None
      else
        match GetJobs(e, n)
        case None => None
        case Some((jobs, f)) =>
          var (m, g) := GetLittle(f, 4);
          if !g.ok || m > |g.rest| / 8 then None
          else
            match GetEdges(g, |jobs|, m)
            case None => None
            case Some((edges, _)) => Some((id, Request(jobs, edges)))
  }

  function DecodeReply(frame: seq<byte>): Option<(nat, seq<JobResult>)> {
    match BodyOf(frame, REPLY)
    case None => None
    case Some(c) =>
      var (id, d) := GetLittle(c, 8);
      var (n, e) := GetLittle(d, 4);
      if !e.ok || n > MAX_JOBS then None
      else
        match GetResults(e, n)
        case None => None
        case Some((results, _)) => Some((id, results))
  }

  function GetStrategies(frameType: nat, c: Cursor): (seq<Offer>, Cursor) {
    if frameType == HELLO then
      var (count, d) := GetLittle(c, 1);
      GetOffers(d, count)
    else
      var (name, d) := GetString(c);
      var (setup, e) := GetBlob(d);
      (if name == [] then [] else [Offer(name, setup)], e)
  }

  function GetHello(frameType: nat, c0: Cursor): Option<Hello> {
    var (magic, c) := GetLittle(c0, 4);
    if magic != MAGIC then None
    else
      var (major, d) := GetLittle(c, 2);
      var (minor, e) := GetLittle(d, 2);
      var (fingerprint, f) := GetLittle(e, 8);
      var (inFlight, g) := GetLittle(f, 4);
      var (inlineBytes, h) := GetLittle(g, 4);
      if !h.ok then None
      else if minor >= 1 && |h.rest| > 0 then
        var (strategies, i) := GetStrategies(frameType, h);
        if !i.ok then None else Some(Hello(major, minor, fingerprint, inFlight, inlineBytes, strategies))
      else Some(Hello(major, minor, fingerprint, inFlight, inlineBytes, []))
  }

  function DecodeHello(frame: seq<byte>): Option<Hello> {
    var t := FrameType(frame);
    if t != Some(HELLO) && t != Some(HELLO_ACK) then None
    else GetHello(t.value, Cursor(frame[HEADER_BYTES..], true))
  }

  function EncodeCancel(id: nat): seq<byte> { FrameOf(CANCEL, Little(id, 8)) }

  function DecodeCancel(frame: seq<byte>): Option<nat> {
    match BodyOf(frame, CANCEL)
    case None => None
    case Some(c) => var (id, d) := GetLittle(c, 8); if d.ok then Some(id) else None
  }

  function EncodeReject(reason: nat, detail: seq<byte>): seq<byte> {
    FrameOf(HELLO_REJECT, Little(reason, 1) + Str(Cut(detail)))
  }

  function DecodeReject(frame: seq<byte>): Option<(nat, seq<byte>)> {
    match BodyOf(frame, HELLO_REJECT)
    case None => None
    case Some(c) =>
      var (reason, d) := GetLittle(c, 1);
      var (detail, e) := GetString(d);
      if e.ok then Some((reason, detail)) else None
  }
}
