/** The wire format byte by byte, on one frame of each shape. */
module WireFormat {
  import opened Jobs
  import opened LittleEndian
  import opened Wire
  import Streams

  lemma Zeros()
    ensures Little(0, 1) == [0] && Little(0, 3) == [0, 0, 0] && Little(0, 7) == [0, 0, 0, 0, 0, 0, 0]
  {
    assert Little(0, 2) == [0, 0];
    assert Little(0, 4) == [0] + Little(0, 3);
    assert Little(0, 5) == [0] + Little(0, 4);
    assert Little(0, 6) == [0] + Little(0, 5);
  }

  lemma Small(v: byte)
    ensures Little(v as nat, 1) == [v] && Little(v as nat, 2) == [v, 0] && Little(v as nat, 4) == [v, 0, 0, 0]
    ensures Little(v as nat, 8) == [v, 0, 0, 0, 0, 0, 0, 0]
  {
    Zeros();
    assert Little(v as nat, 1) == [v] + Little(0, 0);
    assert Little(v as nat, 2) == [v] + Little(0, 1);
    assert Little(v as nat, 4) == [v] + Little(0, 3);
    assert Little(v as nat, 8) == [v] + Little(0, 7);
  }

  lemma Magic()
    ensures Little(MAGIC, 4) == [83, 48, 80, 76]
  {
    assert Little(MAGIC, 4) == [83] + Little(MAGIC / 256, 3);
    assert Little(MAGIC / 256, 3) == [48] + Little(MAGIC / 256 / 256, 2);
  }

  /** Job "ab" at version 3, exported, with an inline byte; job "c" at version 1 with a handle; an edge. */
  lemma JobFormat()
    ensures JobBytes(JobSpec([97, 98], 3, true, Inline([9]))) == [2, 0, 97, 98, 3, 0, 0, 0, 1, 1, 1, 0, 0, 0, 9]
    ensures JobBytes(JobSpec([99], 1, false, Handle([5, 6]))) == [1, 0, 99, 1, 0, 0, 0, 0, 2, 2, 0, 0, 0, 5, 6]
    ensures EdgeBytes(Edge(1, 2)) == [1, 0, 0, 0, 2, 0, 0, 0]
  {
    hide Little;
    Small(0);
    Small(1);
    Small(2);
    Small(3);
  }

  lemma BodyFormat(c: JobSpec)
    requires |JobBytes(c)| == 15
    ensures RequestBody(7, Request([c], [])) == [7, 0, 0, 0, 0, 0, 0, 0, 1, 0, 0, 0] + JobBytes(c) + [0, 0, 0, 0]
  {
    hide Little, JobBytes;
    Small(0);
    Small(1);
    Small(7);
    assert [c][..0] == [];
    assert JobsBytes([c]) == JobBytes(c);
  }

  lemma HeadFormat(body: seq<byte>)
    requires |body| == 31
    ensures FrameOf(REQUEST, body) == [31, 0, 0, 0, 4] + body
  {
    hide Little;
    Small(4);
    Small(31);
  }

  /** A request of job "c" and no edge. */
  lemma RequestFormat()
    ensures EncodeRequest(7, Request([JobSpec([99], 1, false, Handle([5, 6]))], []), [])
         == Some([31, 0, 0, 0, 4] + ([7, 0, 0, 0, 0, 0, 0, 0, 1, 0, 0, 0]
                                     + [1, 0, 99, 1, 0, 0, 0, 0, 2, 2, 0, 0, 0, 5, 6] + [0, 0, 0, 0]))
  {
    hide JobBytes, RequestBody, FrameOf;
    var c := JobSpec([99], 1, false, Handle([5, 6]));
    JobFormat();
    BodyFormat(c);
    HeadFormat(RequestBody(7, Request([c], [])));
    assert WithOverrides([c], []) == [c] && Encodable(c);
  }

  /** A reply of one result with status 4, error 1, message "no" and no output. */
  lemma ReplyFormat()
    ensures EncodeReply(7, [JobResult(4, 1, [110, 111], NoPayload)], [])
         == [23, 0, 0, 0, 5] + [7, 0, 0, 0, 0, 0, 0, 0, 1, 0, 0, 0] + [4, 1, 2, 0, 110, 111, 0, 0, 0, 0, 0]
  {
    hide Little, ResultBytes;
    var x := JobResult(4, 1, [110, 111], NoPayload);
    Small(1);
    Small(5);
    Small(7);
    Small(23);
    ResultFormat();
    assert WithOutputs([x], []) == [x];
    assert [x][..0] == [];
    assert ResultsBytes([x]) == ResultBytes(x);
  }

  lemma ResultFormat()
    ensures ResultBytes(JobResult(4, 1, [110, 111], NoPayload)) == [4, 1, 2, 0, 110, 111, 0, 0, 0, 0, 0]
  {
    hide Little;
    Small(0);
    Small(1);
    Small(2);
    Small(4);
  }

  /** A hello at version 1.1 that offers strategy "s" with setup byte 8, and an ack that chose none. */
  lemma HelloFormat()
    ensures EncodeHello(HELLO, Hello(1, 1, 5, 4, 9, [Offer([115], [8])]))
         == [33, 0, 0, 0, 1] + [83, 48, 80, 76, 1, 0, 1, 0] + [5, 0, 0, 0, 0, 0, 0, 0] + [4, 0, 0, 0, 9, 0, 0, 0]
            + [1, 1, 0, 115, 1, 0, 0, 0, 8]
    ensures EncodeHello(HELLO_ACK, Hello(1, 1, 5, 4, 9, []))
         == [30, 0, 0, 0, 2] + [83, 48, 80, 76, 1, 0, 1, 0] + [5, 0, 0, 0, 0, 0, 0, 0] + [4, 0, 0, 0, 9, 0, 0, 0]
            + [0, 0, 0, 0, 0, 0]
  {
    hide Little, OfferBytes;
    var o := Offer([115], [8]);
    Magic();
    Small(1);
    Small(2);
    Small(4);
    Small(5);
    Small(9);
    Small(30);
    Small(33);
    OfferFormat();
    assert [o][..0] == [];
    assert OffersBytes([o]) == OfferBytes(o);
  }

  lemma OfferFormat()
    ensures OfferBytes(Offer([115], [8])) == [1, 0, 115, 1, 0, 0, 0, 8]
    ensures OfferBytes(Offer([], [])) == [0, 0, 0, 0, 0, 0]
  {
    hide Little;
    Small(0);
    Small(1);
  }

  /** A cancel, a rejection for the fingerprint with detail "x", and the first chunk of stream 1. */
  lemma ShortFormats()
    ensures EncodeCancel(7) == [8, 0, 0, 0, 6, 7, 0, 0, 0, 0, 0, 0, 0]
    ensures EncodeReject(2, [120]) == [4, 0, 0, 0, 3, 2, 1, 0, 120]
    ensures FrameOf(PAYLOAD, Streams.ChunkFrame(Streams.Chunk(1, 3, 0, [10, 11])))
         == [27, 0, 0, 0, 7, 1, 1, 0, 0, 0, 0, 0, 0, 0, 3, 0, 0, 0, 0, 0, 0, 0, 0, 0, 0, 0, 0, 0, 0, 0, 10, 11]
  {
    hide Little;
    Small(0);
    Small(1);
    Small(2);
    Small(3);
    Small(4);
    Small(6);
    Small(7);
    Small(8);
    Small(27);
  }
}
