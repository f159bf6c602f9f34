/** Replies, handshakes and cancels: what decoding makes of what was encoded. */
module WireReplies {
  import opened Jobs
  import opened LittleEndian
  import opened Wire
  import opened WireRoundTrips

  // ---- Replies ----

  predicate ResultOk(r: JobResult) { r.status < 256 && r.error < 256 && |DataOf(r.output)| < U32_LIMIT }

  /** What travels of a result: a message longer than a u16 can announce is cut. */
  function CutResult(r: JobResult): JobResult { r.(message := Cut(r.message)) }

  function CutResults(results: seq<JobResult>): (r: seq<JobResult>)
    ensures |r| == |results|
  {
    seq(|results|, i requires 0 <= i < |results| => CutResult(results[i]))
  }

  lemma GetWrittenResult(r: JobResult, tail: seq<byte>)
    requires ResultOk(r)
    ensures GetResult(Cursor(ResultBytes(r) + tail, true))
         == if Fits(r.output) then Some((CutResult(r), Cursor(tail, true))) else None
  {
    hide GetString, GetLittle, GetPayload, Str, Little, PayloadBytes, Pow256;
    Widths();
    var p := PayloadBytes(r.output);
    var m := Str(Cut(r.message));
    var e := Little(r.error, 1);
    assert ResultBytes(r) + tail == Little(r.status, 1) + (e + (m + (p + tail)));
    GetWritten(r.status, 1, e + (m + (p + tail)));
    GetWritten(r.error, 1, m + (p + tail));
    GetWrittenString(Cut(r.message), p + tail);
    GetWrittenPayload(r.output, tail);
  }

  lemma {:induction false} GetWrittenResults(results: seq<JobResult>, tail: seq<byte>)
    requires forall i :: 0 <= i < |results| ==> ResultOk(results[i])
    ensures GetResults(Cursor(ResultsBytes(results) + tail, true), |results|)
         == if forall i :: 0 <= i < |results| ==> Fits(results[i].output)
            then Some((CutResults(results), Cursor(tail, true))) else None
  {
    hide GetResult, ResultBytes, ResultOk, CutResult, Fits;
    if results == [] {
      assert ResultsBytes(results) + tail == tail;
    } else {
      var n := |results| - 1;
      Regroup(ResultsBytes(results[..n]), ResultBytes(results[n]), tail);
      GetWrittenResults(results[..n], ResultBytes(results[n]) + tail);
      GetWrittenResult(results[n], tail);
      assert CutResults(results[..n]) + [CutResult(results[n])] == CutResults(results);
    }
  }

  /** An encoded reply decodes to the results it was made of, overrides in place of outputs and messages cut to what
      a u16 length can announce, exactly when it has at most 65536 results and sends no handle over the limit;
      otherwise not at all. */
  lemma ReplyRoundTrip(id: nat, results: seq<JobResult>, overrides: seq<Option<Payload>>)
    requires id < U64_LIMIT && forall i :: 0 <= i < |results| ==> ResultOk(WithOutputs(results, overrides)[i])
    requires |results| < U32_LIMIT && |EncodeReply(id, results, overrides)| < U32_LIMIT + HEADER_BYTES
    ensures var d := DecodeReply(EncodeReply(id, results, overrides));
      && (d.Some? <==> |results| <= 65536 && forall i {:trigger results[i]} :: 0 <= i < |results| ==>
            SentAt(results[i].output, overrides, i).Handle? ==> |SentAt(results[i].output, overrides, i).bytes| <= 64)
      && (d.Some? ==>
            && d.value.0 == id && |d.value.1| == |results|
            && forall i {:trigger d.value.1[i]} :: 0 <= i < |results| ==> d.value.1[i] == results[i].(
                 output := SentAt(results[i].output, overrides, i),
                 message := if |results[i].message| > 65535 then results[i].message[..65535] else results[i].message))
  {
    hide EncodeReply, DecodeReply;
    var sent := WithOutputs(results, overrides);
    ReplyLength(id, results, overrides);
    ReplyTravels(id, results, overrides);
    if forall i :: 0 <= i < |results| ==> Fits(sent[i].output) {
      forall i {:trigger results[i]} | 0 <= i < |results| ensures Fits(sent[i].output) {}
    } else {
      var i :| 0 <= i < |results| && !Fits(sent[i].output);
      assert ResultOk(sent[i]) && results[i] == results[i];
    }
  }

  lemma ReplyLength(id: nat, results: seq<JobResult>, overrides: seq<Option<Payload>>)
    ensures |EncodeReply(id, results, overrides)| == |ReplyBody(id, WithOutputs(results, overrides))| + HEADER_BYTES
  {
    hide ReplyBody, Little;
    LittleLength(|ReplyBody(id, WithOutputs(results, overrides))|, 4);
    LittleLength(REPLY, 1);
  }

  lemma ReplyTravels(id: nat, results: seq<JobResult>, overrides: seq<Option<Payload>>)
    requires id < U64_LIMIT && forall i :: 0 <= i < |results| ==> ResultOk(WithOutputs(results, overrides)[i])
    requires |results| < U32_LIMIT && |ReplyBody(id, WithOutputs(results, overrides))| < U32_LIMIT
    ensures var sent := WithOutputs(results, overrides);
      DecodeReply(EncodeReply(id, results, overrides))
         == if |results| <= MAX_JOBS && (forall i :: 0 <= i < |results| ==> Fits(sent[i].output))
            then Some((id, CutResults(sent))) else None
  {
    hide GetLittle, Little, GetResults, ResultsBytes, FrameType, FrameOf, Pow256, ResultOk, Fits, CutResult;
    Widths();
    var sent := WithOutputs(results, overrides);
    var bytes := ResultsBytes(sent);
    FrameIsTyped(REPLY, ReplyBody(id, sent));
    GetWritten(id, 8, Little(|results|, 4) + bytes);
    GetWritten(|results|, 4, bytes);
    GetWrittenResults(sent, []);
    assert bytes + [] == bytes;
  }

  /** The results that travel unchanged: those whose messages fit. */
  lemma CutKeeps(results: seq<JobResult>)
    ensures CutResults(results) == results <==> forall i :: 0 <= i < |results| ==> |results[i].message| <= MAX_U16
  {
    if CutResults(results) == results {
      forall i | 0 <= i < |results| ensures |results[i].message| <= MAX_U16 {
        assert CutResults(results)[i] == CutResult(results[i]);
      }
    }
  }

  // ---- The handshake ----

  predicate HelloOk(h: Hello) {
    && h.major <= MAX_U16 && h.minor <= MAX_U16 && h.fingerprint < U64_LIMIT
    && h.maxInFlight < U32_LIMIT && h.maxInlineBytes < U32_LIMIT
    && forall i :: 0 <= i < |h.strategies| ==> |h.strategies[i].setup| < U32_LIMIT
  }

  function CutOffer(o: Offer): Offer { o.(name := Cut(o.name)) }

  function CutOffers(offers: seq<Offer>): (r: seq<Offer>)
    ensures |r| == |offers|
  {
    seq(|offers|, i requires 0 <= i < |offers| => CutOffer(offers[i]))
  }

  /** What travels of a hello: its first 255 offers; of an ack the first one, if it has a name; none at all
      when the sender's minor version is 0, which a reader takes to have none. */
  function Carried(frameType: nat, h: Hello): Hello {
    if h.minor == 0 then h.(strategies := [])
    else if frameType == HELLO then h.(strategies := CutOffers(FirstOffers(h)))
    else if ChosenOffer(h).name == [] then h.(strategies := [])
    else h.(strategies := [CutOffer(ChosenOffer(h))])
  }

  lemma GetWrittenOffer(o: Offer, tail: seq<byte>)
    requires |o.setup| < U32_LIMIT
    ensures var (name, d) := GetString(Cursor(OfferBytes(o) + tail, true));
      name == Cut(o.name) && GetBlob(d) == (o.setup, Cursor(tail, true))
  {
    hide GetString, GetBlob, Str, Blob;
    Regroup(Str(Cut(o.name)), Blob(o.setup), tail);
    GetWrittenString(Cut(o.name), Blob(o.setup) + tail);
    GetWrittenBlob(o.setup, tail);
  }

  lemma {:induction false} GetWrittenOffers(offers: seq<Offer>, tail: seq<byte>)
    requires forall i :: 0 <= i < |offers| ==> |offers[i].setup| < U32_LIMIT
    ensures GetOffers(Cursor(OffersBytes(offers) + tail, true), |offers|) == (CutOffers(offers), Cursor(tail, true))
  {
    hide GetString, GetBlob, OfferBytes, Cut;
    if offers == [] {
      assert OffersBytes(offers) + tail == tail;
    } else {
      var n := |offers| - 1;
      Regroup(OffersBytes(offers[..n]), OfferBytes(offers[n]), tail);
      GetWrittenOffers(offers[..n], OfferBytes(offers[n]) + tail);
      GetWrittenOffer(offers[n], tail);
      assert CutOffers(offers[..n]) + [CutOffer(offers[n])] == CutOffers(offers);
    }
  }

  function StrategyBytes(frameType: nat, h: Hello): seq<byte> {
    if frameType == HELLO then Little(|FirstOffers(h)|, 1) + OffersBytes(FirstOffers(h)) else OfferBytes(ChosenOffer(h))
  }

  lemma GetWrittenStrategies(frameType: nat, h: Hello)
    requires HelloOk(h) && h.minor >= 1
    ensures GetStrategies(frameType, Cursor(StrategyBytes(frameType, h), true))
         == (Carried(frameType, h).strategies, Cursor([], true))
    ensures |StrategyBytes(frameType, h)| > 0
  {
    hide GetLittle, GetOffers, GetString, GetBlob, OffersBytes, OfferBytes, Little, Pow256;
    Widths();
    if frameType == HELLO {
      var offers := OffersBytes(FirstOffers(h));
      LittleLength(|FirstOffers(h)|, 1);
      GetWritten(|FirstOffers(h)|, 1, offers);
      GetWrittenOffers(FirstOffers(h), []);
      assert offers + [] == offers;
    } else {
      var o := ChosenOffer(h);
      OfferNonEmpty(o);
      GetWrittenOffer(o, []);
      assert OfferBytes(o) + [] == OfferBytes(o);
      assert Cut(o.name) == [] <==> o.name == [];
    }
  }

  lemma OfferNonEmpty(o: Offer)
    ensures |OfferBytes(o)| > 0
  {
    LittleLength(|Cut(o.name)|, 2);
  }

  /** Decoding an encoded hello or hello-ack gives exactly what the format carries of it. */
  lemma HelloRoundTrip(frameType: nat, h: Hello)
    requires (frameType == HELLO || frameType == HELLO_ACK) && HelloOk(h) && |HelloBody(frameType, h)| < U32_LIMIT
    ensures DecodeHello(EncodeHello(frameType, h)) == Some(Carried(frameType, h))
  {
    hide GetLittle, Little, FrameType, FrameOf, Pow256, GetStrategies, StrategyBytes;
    Widths();
    var s := StrategyBytes(frameType, h);
    var b := Little(h.maxInlineBytes, 4) + s;
    var a := Little(h.maxInFlight, 4) + b;
    var f := Little(h.fingerprint, 8) + a;
    var m := Little(h.minor, 2) + f;
    var j := Little(h.major, 2) + m;
    BodyIs(frameType, h);
    FrameIsTyped(frameType, HelloBody(frameType, h));
    GetWritten(MAGIC, 4, j);
    GetWritten(h.major, 2, m);
    GetWritten(h.minor, 2, f);
    GetWritten(h.fingerprint, 8, a);
    GetWritten(h.maxInFlight, 4, b);
    GetWritten(h.maxInlineBytes, 4, s);
    if h.minor >= 1 { GetWrittenStrategies(frameType, h); }
  }

  lemma BodyIs(frameType: nat, h: Hello)
    ensures HelloBody(frameType, h)
      == Little(MAGIC, 4) + (Little(h.major, 2) + (Little(h.minor, 2) + (Little(h.fingerprint, 8)
       + (Little(h.maxInFlight, 4) + (Little(h.maxInlineBytes, 4) + StrategyBytes(frameType, h))))))
  {
    hide Little, OffersBytes, OfferBytes;
  }

  /** What that is: the first 255 offers of a hello, the first one of an ack if it has a name, none from a minor version
      of 0; every name cut to 65535 bytes, everything else as it was. */
  lemma CarriedMeans(frameType: nat, h: Hello)
    requires frameType == HELLO || frameType == HELLO_ACK
    ensures var c := Carried(frameType, h);
      && c == h.(strategies := c.strategies)
      && |c.strategies| == (if h.minor == 0 then 0
                            else if frameType == HELLO then (if |h.strategies| < 255 then |h.strategies| else 255)
                            else if h.strategies != [] && h.strategies[0].name != [] then 1 else 0)
      && forall i {:trigger c.strategies[i]} :: 0 <= i < |c.strategies| ==>
           && c.strategies[i].setup == h.strategies[i].setup
           && c.strategies[i].name == if |h.strategies[i].name| > 65535 then h.strategies[i].name[..65535]
                                      else h.strategies[i].name
  {
  }

  /** The values that survive unchanged. */
  lemma CarriedWhole(frameType: nat, h: Hello)
    requires frameType == HELLO || frameType == HELLO_ACK
    ensures Carried(frameType, h) == h <==>
      && (h.minor == 0 ==> h.strategies == [])
      && (h.minor >= 1 && frameType == HELLO ==>
            |h.strategies| <= 255 && forall i :: 0 <= i < |h.strategies| ==> |h.strategies[i].name| <= MAX_U16)
      && (h.minor >= 1 && frameType == HELLO_ACK ==>
            |h.strategies| <= 1 && forall i :: 0 <= i < |h.strategies| ==> 0 < |h.strategies[i].name| <= MAX_U16)
  {
    if h.minor >= 1 && frameType == HELLO {
      var c := CutOffers(FirstOffers(h));
      if c == h.strategies {
        forall i | 0 <= i < |h.strategies| ensures |h.strategies[i].name| <= MAX_U16 {
          assert c[i] == CutOffer(h.strategies[i]);
        }
      } else if |h.strategies| <= 255 {
        assert exists i :: 0 <= i < |c| && c[i] != h.strategies[i];
      }
    }
  }

  // ---- Cancels and rejections ----

  lemma CancelRoundTrip(id: nat)
    requires id < U64_LIMIT
    ensures DecodeCancel(EncodeCancel(id)) == Some(id)
  {
    hide GetLittle, Little, FrameType, FrameOf, Pow256;
    Widths();
    LittleLength(id, 8);
    FrameIsTyped(CANCEL, Little(id, 8));
    GetWritten(id, 8, []);
    assert Little(id, 8) + [] == Little(id, 8);
  }

  lemma RejectRoundTrip(reason: nat, detail: seq<byte>)
    requires reason < 256
    ensures DecodeReject(EncodeReject(reason, detail)) == Some((reason, Cut(detail)))
  {
    hide GetLittle, GetString, Little, FrameType, FrameOf, Pow256;
    Widths();
    var d := Str(Cut(detail));
    LittleLength(|Cut(detail)|, 2);
    LittleLength(reason, 1);
    FrameIsTyped(HELLO_REJECT, Little(reason, 1) + d);
    GetWritten(reason, 1, d);
    GetWrittenString(Cut(detail), []);
    assert d + [] == d;
  }
}
