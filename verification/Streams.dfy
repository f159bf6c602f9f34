/** The "stream" payload strategy: a payload travels as chunk frames and is put together again. */
module Streams {
  import opened Jobs
  import opened LittleEndian

  const CHUNK_KIND: byte := 1
  const CHUNK_HEADER: nat := 25
  const MAX_CHUNK: nat := 0xFFFF_FFBF   // UINT32_MAX - 64

  /** The body of a payload frame: kind, stream, total, offset, bytes. */
  datatype Chunk = Chunk(stream: nat, total: nat, offset: nat, bytes: seq<byte>)

  function ChunkFrame(c: Chunk): seq<byte> {
    [CHUNK_KIND] + Little(c.stream, 8) + Little(c.total, 8) + Little(c.offset, 8) + c.bytes
  }

  /** The chunks of a payload from `offset` on: each full but the last, and one even of an empty payload. */
  function Chunks(stream: nat, payload: seq<byte>, size: nat, offset: nat): seq<Chunk>
    requires size > 0 && offset <= |payload|
    decreases |payload| - offset
  {
    var end := ChunkEnd(payload, size, offset);
    [Chunk(stream, |payload|, offset, payload[offset..end])]
    + (if end < |payload| then Chunks(stream, payload, size, end) else [])
  }

  function ChunkEnd(payload: seq<byte>, size: nat, offset: nat): (end: nat)
    requires size > 0 && offset <= |payload|
    ensures offset <= end <= |payload| && end - offset <= size && (offset < |payload| ==> offset < end)
  {
    if size < |payload| - offset then offset + size else |payload|
  }

  function Frames(chunks: seq<Chunk>): (frames: seq<seq<byte>>)
    ensures |frames| == |chunks|
  {
    seq(|chunks|, i requires 0 <= i < |chunks| => ChunkFrame(chunks[i]))
  }

  function Reference(stream: nat): seq<byte> { Little(stream, 8) }

  /** What a frame body says, if it is a chunk that fits into its own total. */
  function ParseChunk(body: seq<byte>): Option<Chunk> {
    if |body| < CHUNK_HEADER || body[0] != CHUNK_KIND then None
    else
      var c := Chunk(Value(body[1..9]), Value(body[9..17]), Value(body[17..25]), body[CHUNK_HEADER..]);
      if c.offset > c.total || |c.bytes| > c.total - c.offset then None else Some(c)
  }

  // ---- Reassembly ----

  datatype Partial = Partial(storage: seq<byte>, total: nat, received: nat)
  datatype Inbox = Inbox(partials: map<nat, Partial>, complete: map<nat, seq<byte>>)

  /** The storage with a chunk copied in. */
  function Copied(storage: seq<byte>, offset: nat, bytes: seq<byte>): (r: seq<byte>)
    requires offset + |bytes| <= |storage|
    ensures |r| == |storage|
  {
    storage[..offset] + bytes + storage[offset + |bytes|..]
  }

  /** onPayloadFrame() for a chunk. `owned`: the frame's buffer may be kept. `raw`: what new storage contains. */
  function Receive(box: Inbox, c: Chunk, owned: bool, raw: seq<byte>): Inbox
    requires |raw| == c.total && c.offset + |c.bytes| <= c.total
    requires forall s :: s in box.partials ==> |box.partials[s].storage| == box.partials[s].total
  {
    if c.offset == 0 && |c.bytes| == c.total && owned then box.(complete := box.complete[c.stream := c.bytes])
    else
      var p := if c.stream in box.partials then box.partials[c.stream] else Partial(raw, c.total, 0);
      if p.total != c.total then box
      else
        var q := Partial(Copied(p.storage, c.offset, c.bytes), p.total, p.received + |c.bytes|);
        if q.received >= q.total
        then Inbox(box.partials - {c.stream}, box.complete[c.stream := q.storage])
        else box.(partials := box.partials[c.stream := q])
  }

  class StreamStrategy {
    var chunkBytes: nat
    var nextStream: nat
    var partials: map<nat, Partial>
    var complete: map<nat, seq<byte>>

    ghost predicate Valid()
      reads this
    {
      && 1 <= chunkBytes <= MAX_CHUNK
      && forall s :: s in partials ==> |partials[s].storage| == partials[s].total
    }

    ghost function Box(): Inbox
      reads this
    {
      Inbox(partials, complete)
    }

    /** The configured chunk size is clamped to what a frame body has room for. */
    constructor (option: nat)
      requires option < U32_LIMIT
      ensures Valid() && chunkBytes == (if option < 1 then 1 else if option > MAX_CHUNK then MAX_CHUNK else option)
      ensures nextStream == 1 && Box() == Inbox(map[], map[])
    {
      chunkBytes := if option < 1 then 1 else if option > MAX_CHUNK then MAX_CHUNK else option;
      nextStream := 1;
      partials := map[];
      complete := map[];
    }

    method Offer() returns (offer: seq<byte>)
      requires Valid()
      ensures offer == Little(chunkBytes, 4)
    {
      offer := Little(chunkBytes, 4);
    }

    /** accept() and complete(): both take the smaller of the own and the peer's chunk size. */
    method Negotiate(peerBytes: seq<byte>) returns (reply: Option<seq<byte>>)
      requires Valid()
      modifies this`chunkBytes
      ensures Valid()
      ensures reply.Some? <==> |peerBytes| == 4 && Value(peerBytes) != 0
      ensures reply.None? ==> chunkBytes == old(chunkBytes)
      ensures reply.Some? ==> chunkBytes == Smaller(old(chunkBytes), Value(peerBytes)) && reply.value == Little(chunkBytes, 4)
    {
      if |peerBytes| != 4 { return None; }
      var peer := ReadValue(peerBytes);
      if peer == 0 { return None; }
      chunkBytes := if peer < chunkBytes then peer else chunkBytes;
      return Some(Little(chunkBytes, 4));
    }

    /** Sends a payload in chunks; the transport takes the first `room` frames and then fails. */
    method Send(payload: seq<byte>, room: nat) returns (frames: seq<seq<byte>>, reference: Option<seq<byte>>)
      requires Valid() && |payload| < U64_LIMIT
      modifies this`nextStream
      ensures Valid() && nextStream == old(nextStream) + 1
      ensures var all := Frames(Chunks(old(nextStream), payload, chunkBytes, 0));
        && (reference.Some? <==> |all| <= room)
        && (reference.Some? ==> frames == all && reference.value == Reference(old(nextStream)))
        && (reference.None? ==> frames == all[..room])
    {
      hide Chunks, Frames, ChunkFrame, Reference;
      var stream := nextStream;
      nextStream := nextStream + 1;
      var offset := 0;
      frames := [];
      var more := true;
      ghost var all := Frames(Chunks(stream, payload, chunkBytes, 0));
      while more
        invariant offset <= |payload| && |frames| <= room
        invariant all == frames + (if more then Frames(Chunks(stream, payload, chunkBytes, offset)) else [])
        modifies {}
        decreases |payload| - offset, more
      {
        var end := ChunkEnd(payload, chunkBytes, offset);
        var frame := ChunkFrame(Chunk(stream, |payload|, offset, payload[offset..end]));
        NextFrame(stream, payload, chunkBytes, offset);
        if |frames| == room { return frames, None; }
        frames := frames + [frame];
        offset := end;
        more := offset < |payload|;
      }
      reference := Some(Reference(stream));
    }

    /** Takes the payload of a stream out, once it is complete. */
    method ReceivePayload(reference: seq<byte>) returns (payload: Option<seq<byte>>)
      requires Valid()
      modifies this`complete
      ensures Valid()
      ensures payload.Some? <==> |reference| == 8 && Value(reference) in old(complete)
      ensures payload.Some? ==>
        payload.value == old(complete)[Value(reference)] && complete == old(complete) - {Value(reference)}
      ensures payload.None? ==> complete == old(complete)
    {
      if |reference| != 8 { return None; }
      var stream := ReadValue(reference);
      if stream !in complete { return None; }
      payload := Some(complete[stream]);
      complete := complete - {stream};
    }

    /** A payload frame arrives: malformed ones and ones that contradict their stream's total are ignored. */
    method OnPayloadFrame(body: seq<byte>, owned: bool, raw: seq<byte>)
      requires Valid() && (ParseChunk(body).Some? ==> |raw| == ParseChunk(body).value.total)
      modifies this`partials, this`complete
      ensures Valid()
      ensures Box() == if ParseChunk(body).None? then old(Box()) else Receive(old(Box()), ParseChunk(body).value, owned, raw)
    {
      if |body| < CHUNK_HEADER || body[0] != CHUNK_KIND { return; }
      var stream := ReadValue(body[1..9]);
      var total := ReadValue(body[9..17]);
      var offset := ReadValue(body[17..25]);
      var chunk := body[CHUNK_HEADER..];
      if offset > total || |chunk| > total - offset { return; }
      if offset == 0 && |chunk| == total && owned {
        complete := complete[stream := chunk];
        return;
      }
      var p := if stream in partials then partials[stream] else Partial(raw, total, 0);
      if p.total != total { return; }
      p := p.(storage := Copied(p.storage, offset, chunk), received := p.received + |chunk|);
      if p.received >= p.total {
        complete := complete[stream := p.storage];
        partials := partials - {stream};
      } else {
        partials := partials[stream := p];
      }
    }

    method OnClosed()
      requires Valid()
      modifies this`partials, this`complete
      ensures Valid() && Box() == Inbox(map[], map[])
    {
      partials := map[];
      complete := map[];
    }
  }

  lemma NextFrame(stream: nat, payload: seq<byte>, size: nat, offset: nat)
    requires size > 0 && offset <= |payload|
    ensures var end := ChunkEnd(payload, size, offset);
      Frames(Chunks(stream, payload, size, offset))
      == [ChunkFrame(Chunk(stream, |payload|, offset, payload[offset..end]))]
         + (if end < |payload| then Frames(Chunks(stream, payload, size, end)) else [])
  {
    hide ChunkFrame;
  }

  function Smaller(a: nat, b: nat): nat { if b < a then b else a }

  /** The coordinator offers `a`, the worker answers with its own size `b` in mind, the coordinator completes:
      both end with the smaller size. */
  method Handshake(coordinator: StreamStrategy, worker: StreamStrategy) returns (agreed: bool)
    requires coordinator != worker && coordinator.Valid() && worker.Valid()
    modifies coordinator`chunkBytes, worker`chunkBytes
    ensures agreed
    ensures coordinator.chunkBytes == worker.chunkBytes
         == Smaller(old(coordinator.chunkBytes), old(worker.chunkBytes))
  {
    var a, b := coordinator.chunkBytes, worker.chunkBytes;
    var offer := coordinator.Offer();
    SizeTravels(a);
    var answer := worker.Negotiate(offer);
    SizeTravels(Smaller(b, a));
    var done := coordinator.Negotiate(answer.value);
    agreed := done.Some?;
  }

  lemma SizeTravels(v: nat)
    requires 1 <= v <= MAX_CHUNK
    ensures Value(Little(v, 4)) == v && |Little(v, 4)| == 4
  {
    hide Little, Value, Pow256;
    ValueOfLittle(v, 4);
    Widths();
  }

  // ---- Chunks tile the payload ----

  /** The chunks continue one another from `offset` to the end, each non-empty unless the payload is empty. */
  ghost predicate Tiles(chunks: seq<Chunk>, stream: nat, payload: seq<byte>, offset: nat) {
    && |chunks| > 0 && chunks[0].offset == offset
    && (forall i {:trigger chunks[i]} :: 0 <= i < |chunks| ==>
          && chunks[i].stream == stream && chunks[i].total == |payload|
          && chunks[i].offset + |chunks[i].bytes| <= |payload|
          && chunks[i].bytes == payload[chunks[i].offset..chunks[i].offset + |chunks[i].bytes|])
    && (forall i :: 0 <= i < |chunks| - 1 ==> chunks[i].offset + |chunks[i].bytes| == chunks[i + 1].offset)
    && chunks[|chunks| - 1].offset + |chunks[|chunks| - 1].bytes| == |payload|
    && (offset < |payload| ==> forall i {:trigger chunks[i]} :: 0 <= i < |chunks| ==> |chunks[i].bytes| > 0)
    && (offset == |payload| ==> |chunks| == 1)
  }

  lemma TilesCons(c: Chunk, rest: seq<Chunk>, payload: seq<byte>)
    requires c.total == |payload| && |c.bytes| > 0 && c.offset + |c.bytes| < |payload|
    requires c.bytes == payload[c.offset..c.offset + |c.bytes|]
    requires Tiles(rest, c.stream, payload, c.offset + |c.bytes|)
    ensures Tiles([c] + rest, c.stream, payload, c.offset)
  {
    var all := [c] + rest;
    forall i {:trigger all[i]} | 0 < i < |all| ensures all[i] == rest[i - 1] {}
    forall i | 0 <= i < |all| - 1 ensures all[i].offset + |all[i].bytes| == all[i + 1].offset {
      assert all[i + 1] == rest[i];
      if i > 0 { assert all[i] == rest[i - 1]; }
    }
    assert all[|all| - 1] == rest[|rest| - 1];
  }

  /** The send loop's chunks tile the payload, whatever its size: empty, a multiple of the chunk size or not;
      none is longer than the chunk size. */
  lemma {:induction false} ChunksTile(stream: nat, payload: seq<byte>, size: nat, offset: nat)
    requires size > 0 && offset <= |payload|
    ensures Tiles(Chunks(stream, payload, size, offset), stream, payload, offset)
    ensures forall i :: 0 <= i < |Chunks(stream, payload, size, offset)| ==>
      |Chunks(stream, payload, size, offset)[i].bytes| <= size
    decreases |payload| - offset
  {
    var end := ChunkEnd(payload, size, offset);
    var c := Chunk(stream, |payload|, offset, payload[offset..end]);
    if end < |payload| {
      hide Tiles;
      ChunksTile(stream, payload, size, end);
      TilesCons(c, Chunks(stream, payload, size, end), payload);
    } else {
      assert Chunks(stream, payload, size, offset) == [c];
    }
  }

  /** Every chunk frame's body fits the u32 length of a frame. */
  lemma FrameFits(stream: nat, payload: seq<byte>, size: nat, i: nat)
    requires 0 < size <= MAX_CHUNK && i < |Chunks(stream, payload, size, 0)|
    ensures |ChunkFrame(Chunks(stream, payload, size, 0)[i])| < U32_LIMIT
  {
    ChunksTile(stream, payload, size, 0);
  }

  /** A sent chunk frame is read back as the chunk it was made of. */
  lemma ChunkTravels(c: Chunk)
    requires c.stream < U64_LIMIT && c.total < U64_LIMIT && c.offset + |c.bytes| <= c.total
    ensures ParseChunk(ChunkFrame(c)) == Some(c)
  {
    hide Little, Value, Pow256;
    Widths();
    ValueOfLittle(c.stream, 8);
    ValueOfLittle(c.total, 8);
    ValueOfLittle(c.offset, 8);
    Eight(c.stream);
    Eight(c.total);
    Eight(c.offset);
    var f := ChunkFrame(c);
    assert f[1..9] == Little(c.stream, 8) && f[9..17] == Little(c.total, 8) && f[17..25] == Little(c.offset, 8);
    assert f[25..] == c.bytes;
    SmallMod(c.stream, U64_LIMIT);
    SmallMod(c.total, U64_LIMIT);
    SmallMod(c.offset, U64_LIMIT);
  }

  /** Exactly the frames of chunks that fit into their own total are read. */
  lemma ParsesExactly(body: seq<byte>, c: Chunk)
    ensures ParseChunk(body) == Some(c) <==>
      c.stream < U64_LIMIT && c.total < U64_LIMIT && c.offset + |c.bytes| <= c.total && body == ChunkFrame(c)
  {
    hide Little, Value, Pow256;
    Widths();
    if ParseChunk(body) == Some(c) {
      LittleOfValue(body[1..9]);
      LittleOfValue(body[9..17]);
      LittleOfValue(body[17..25]);
      ValueBound(body[1..9]);
      ValueBound(body[9..17]);
      assert body == [body[0]] + body[1..9] + body[9..17] + body[17..25] + body[CHUNK_HEADER..];
    }
    if c.stream < U64_LIMIT && c.total < U64_LIMIT && c.offset + |c.bytes| <= c.total && body == ChunkFrame(c) {
      ChunkTravels(c);
    }
  }

  /** A chunk that contradicts its stream's total is ignored, unless it is a whole payload in a buffer that may be kept,
      which completes the stream at once; no chunk touches another stream. */
  lemma OneStreamOnly(box: Inbox, c: Chunk, owned: bool, raw: seq<byte>, q: nat)
    requires |raw| == c.total && c.offset + |c.bytes| <= c.total
    requires forall s :: s in box.partials ==> |box.partials[s].storage| == box.partials[s].total
    ensures var after := Receive(box, c, owned, raw);
      && (c.stream in box.partials && box.partials[c.stream].total != c.total && !(owned && |c.bytes| == c.total) ==>
            after == box)
      && (owned && |c.bytes| == c.total ==> c.stream in after.complete && after.complete[c.stream] == c.bytes)
      && (q != c.stream ==>
            && (q in after.partials <==> q in box.partials)
            && (q in box.partials ==> after.partials[q] == box.partials[q])
            && (q in after.complete <==> q in box.complete)
            && (q in box.complete ==> after.complete[q] == box.complete[q]))
  {
  }

  /** A reference names its own stream. */
  lemma ReferenceTravels(stream: nat)
    requires stream < U64_LIMIT
    ensures |Reference(stream)| == 8 && Value(Reference(stream)) == stream
  {
    hide Little, Value, Pow256;
    Widths();
    ValueOfLittle(stream, 8);
    Eight(stream);
    SmallMod(stream, U64_LIMIT);
  }

  lemma Eight(v: nat)
    ensures |Little(v, 8)| == 8
  {
  }
}
