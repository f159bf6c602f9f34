/** Any number of payloads sent as chunk frames, delivered in any order and interleaving: each arrives whole,
    and can be taken out exactly once. */
module StreamReassembly {
  import opened Jobs
  import opened LittleEndian
  import opened Streams

  /** The payloads, by stream number, and the size their chunks were cut to. */
  datatype Sent = Sent(payloads: map<nat, seq<byte>>, size: nat)

  predicate SentOk(w: Sent) { w.size > 0 }

  function Cut(w: Sent, p: nat): seq<Chunk>
    requires SentOk(w) && p in w.payloads
  {
    Chunks(p, w.payloads[p], w.size, 0)
  }

  datatype Event =
    | Deliver(p: nat, k: nat, owned: bool, raw: seq<byte>)  // the k-th chunk of stream `p` arrives
    | TakeOut(p: nat)                                       // receive() asks for stream `p`

  predicate EventOk(w: Sent, e: Event)
    requires SentOk(w)
  {
    e.p in w.payloads && (e.Deliver? ==> e.k < |Cut(w, e.p)| && |e.raw| == |w.payloads[e.p]|)
  }

  /** Each chunk arrives at most once. */
  predicate Once(events: seq<Event>) {
    forall i, j :: 0 <= i < j < |events| && events[i].Deliver? && events[j].Deliver? && events[i].p == events[j].p ==>
      events[i].k != events[j].k
  }

  predicate BoxOk(box: Inbox) {
    forall s :: s in box.partials ==> |box.partials[s].storage| == box.partials[s].total
  }

  function TakeFrom(box: Inbox, p: nat): Inbox { box.(complete := box.complete - {p}) }

  lemma CutFits(w: Sent, p: nat, k: nat)
    requires SentOk(w) && p in w.payloads && k < |Cut(w, p)|
    ensures var c := Cut(w, p)[k];
      c.stream == p && c.total == |w.payloads[p]| && c.offset + |c.bytes| <= c.total
  {
    ChunksTile(p, w.payloads[p], w.size, 0);
  }

  ghost function Apply(w: Sent, box: Inbox, e: Event): (after: Inbox)
    requires SentOk(w) && EventOk(w, e) && BoxOk(box)
    ensures BoxOk(after)
  {
    match e
    case Deliver(p, k, owned, raw) =>
      CutFits(w, p, k);
      Receive(box, Cut(w, p)[k], owned, raw)
    case TakeOut(p) => TakeFrom(box, p)
  }

  /** The receiving side after `events`. */
  ghost function After(w: Sent, events: seq<Event>): (box: Inbox)
    requires SentOk(w) && forall i :: 0 <= i < |events| ==> EventOk(w, events[i])
    ensures BoxOk(box)
  {
    if events == [] then Inbox(map[], map[])
    else Apply(w, After(w, events[..|events| - 1]), events[|events| - 1])
  }

  /** The chunks of `p` that have arrived. */
  function Arrived(events: seq<Event>, p: nat): set<nat> {
    set i | 0 <= i < |events| && events[i].Deliver? && events[i].p == p :: events[i].k
  }

  /** receive() was asked for stream `p` after its last chunk had arrived. */
  ghost predicate Taken(w: Sent, events: seq<Event>, p: nat)
    requires SentOk(w) && p in w.payloads
  {
    events != []
    && (Taken(w, events[..|events| - 1], p)
        || (events[|events| - 1] == TakeOut(p) && AllArrived(w, events[..|events| - 1], p)))
  }

  predicate AllArrived(w: Sent, events: seq<Event>, p: nat)
    requires SentOk(w) && p in w.payloads
  {
    forall k :: 0 <= k < |Cut(w, p)| ==> k in Arrived(events, p)
  }

  /** How many bytes the chunks below `n` that are in `got` have. */
  function Bytes(chunks: seq<Chunk>, got: set<nat>, n: nat): nat
    requires n <= |chunks|
  {
    if n == 0 then 0 else Bytes(chunks, got, n - 1) + (if n - 1 in got then |chunks[n - 1].bytes| else 0)
  }

  lemma {:induction false} BytesAdd(chunks: seq<Chunk>, got: set<nat>, k: nat, n: nat)
    requires n <= |chunks| && k !in got
    ensures Bytes(chunks, got + {k}, n) == Bytes(chunks, got, n) + (if k < n then |chunks[k].bytes| else 0)
  {
    if n > 0 { BytesAdd(chunks, got, k, n - 1); }
  }

  lemma {:induction false} BytesBound(chunks: seq<Chunk>, got: set<nat>, payload: seq<byte>, stream: nat, n: nat)
    requires Tiles(chunks, stream, payload, 0) && 0 < n <= |chunks|
    ensures Bytes(chunks, got, n) <= chunks[n - 1].offset + |chunks[n - 1].bytes|
    ensures (forall k :: 0 <= k < n ==> k in got) ==>
      Bytes(chunks, got, n) == chunks[n - 1].offset + |chunks[n - 1].bytes|
    ensures payload != [] && (exists k :: 0 <= k < n && k !in got) ==>
      Bytes(chunks, got, n) < chunks[n - 1].offset + |chunks[n - 1].bytes|
  {
    if n > 1 {
      BytesBound(chunks, got, payload, stream, n - 1);
      assert chunks[n - 2].offset + |chunks[n - 2].bytes| == chunks[n - 1].offset;
      assert payload != [] ==> |chunks[n - 1].bytes| > 0;
      assert payload != [] ==> |chunks[n - 2].bytes| > 0;
    } else {
      assert Bytes(chunks, got, 1) == Bytes(chunks, got, 0) + (if 0 in got then |chunks[0].bytes| else 0);
      assert payload != [] ==> |chunks[0].bytes| > 0;
    }
  }

  /** The storage holds every chunk in `got` in its place. */
  ghost predicate Holds(chunks: seq<Chunk>, got: set<nat>, storage: seq<byte>) {
    forall k {:trigger chunks[k]} :: 0 <= k < |chunks| && k in got ==>
      chunks[k].offset + |chunks[k].bytes| <= |storage|
      && storage[chunks[k].offset..chunks[k].offset + |chunks[k].bytes|] == chunks[k].bytes
  }

  lemma {:induction false} Before(chunks: seq<Chunk>, stream: nat, payload: seq<byte>, i: nat, j: nat)
    requires Tiles(chunks, stream, payload, 0) && i < j < |chunks|
    ensures chunks[i].offset + |chunks[i].bytes| <= chunks[j].offset
    decreases j - i
  {
    if i + 1 < j {
      Before(chunks, stream, payload, i + 1, j);
      assert chunks[i].offset + |chunks[i].bytes| == chunks[i + 1].offset;
    }
  }

  lemma CopyHolds(chunks: seq<Chunk>, got: set<nat>, storage: seq<byte>, k: nat, stream: nat, payload: seq<byte>)
    requires Tiles(chunks, stream, payload, 0) && Holds(chunks, got, storage) && |storage| == |payload|
    requires k < |chunks|
    ensures chunks[k].offset + |chunks[k].bytes| <= |storage|
    ensures Holds(chunks, got + {k}, Copied(storage, chunks[k].offset, chunks[k].bytes))
  {
    var c := chunks[k];
    var copy := Copied(storage, c.offset, c.bytes);
    forall j {:trigger chunks[j]} | 0 <= j < |chunks| && j in got + {k}
      ensures chunks[j].offset + |chunks[j].bytes| <= |copy|
        && copy[chunks[j].offset..chunks[j].offset + |chunks[j].bytes|] == chunks[j].bytes
    {
      var d := chunks[j];
      if j < k { Before(chunks, stream, payload, j, k); CopyApart(storage, c, d); }
      else if k < j { Before(chunks, stream, payload, k, j); CopyApart(storage, c, d); }
    }
  }

  lemma CopyApart(storage: seq<byte>, c: Chunk, d: Chunk)
    requires c.offset + |c.bytes| <= |storage| && d.offset + |d.bytes| <= |storage|
    requires c.offset + |c.bytes| <= d.offset || d.offset + |d.bytes| <= c.offset
    ensures Copied(storage, c.offset, c.bytes)[d.offset..d.offset + |d.bytes|] == storage[d.offset..d.offset + |d.bytes|]
  {
  }

  /** All chunks in place are the payload. */
  lemma {:induction false} HoldsAll(chunks: seq<Chunk>, got: set<nat>, storage: seq<byte>, stream: nat,
                                    payload: seq<byte>, n: nat)
    requires Tiles(chunks, stream, payload, 0) && Holds(chunks, got, storage) && |storage| == |payload|
    requires forall k :: 0 <= k < |chunks| ==> k in got
    requires 0 < n <= |chunks|
    ensures var end := chunks[n - 1].offset + |chunks[n - 1].bytes|;
      end <= |payload| && storage[..end] == payload[..end]
  {
    var c := chunks[n - 1];
    var end := c.offset + |c.bytes|;
    assert storage[c.offset..end] == payload[c.offset..end];
    if n > 1 {
      HoldsAll(chunks, got, storage, stream, payload, n - 1);
      assert chunks[n - 2].offset + |chunks[n - 2].bytes| == c.offset;
    }
    assert storage[..end] == storage[..c.offset] + storage[c.offset..end];
    assert payload[..end] == payload[..c.offset] + payload[c.offset..end];
  }

  // ---- The invariant of one stream ----

  /** Stream `p` with the chunks `got` arrived: nothing, a partial payload, or the whole one until taken. */
  ghost predicate StreamOk(box: Inbox, p: nat, payload: seq<byte>, chunks: seq<Chunk>, got: set<nat>, taken: bool) {
    if got == {} then p !in box.partials && p !in box.complete
    else if forall k :: 0 <= k < |chunks| ==> k in got then
      p !in box.partials && (if taken then p !in box.complete else p in box.complete && box.complete[p] == payload)
    else
      && p !in box.complete && p in box.partials
      && box.partials[p].total == |payload| == |box.partials[p].storage|
      && box.partials[p].received == Bytes(chunks, got, |chunks|)
      && Holds(chunks, got, box.partials[p].storage)
  }

  /** The chunk completes the payload, or stays one of several. */
  lemma PartialKeeps(p: nat, payload: seq<byte>, chunks: seq<Chunk>, got: set<nat>, k: nat, storage: seq<byte>)
    requires Tiles(chunks, p, payload, 0) && k < |chunks| && k !in got && |storage| == |payload|
    requires Holds(chunks, got, storage)
    ensures chunks[k].offset + |chunks[k].bytes| <= |payload|
    ensures var copy := Copied(storage, chunks[k].offset, chunks[k].bytes);
      if forall j :: 0 <= j < |chunks| ==> j in got + {k} then
        copy == payload && Bytes(chunks, got, |chunks|) + |chunks[k].bytes| == |payload|
      else
        && Holds(chunks, got + {k}, copy)
        && Bytes(chunks, got + {k}, |chunks|) == Bytes(chunks, got, |chunks|) + |chunks[k].bytes| < |payload|
  {
    hide Tiles, Holds, Copied, Bytes;
    BytesAdd(chunks, got, k, |chunks|);
    AllBytes(chunks, got + {k}, payload, p);
    CopyHolds(chunks, got, storage, k, p, payload);
    if forall j :: 0 <= j < |chunks| ==> j in got + {k} {
      HoldsPayload(chunks, got + {k}, Copied(storage, chunks[k].offset, chunks[k].bytes), p, payload);
    }
  }

  lemma AllBytes(chunks: seq<Chunk>, got: set<nat>, payload: seq<byte>, stream: nat)
    requires Tiles(chunks, stream, payload, 0) && got != {}
    ensures if forall k :: 0 <= k < |chunks| ==> k in got then Bytes(chunks, got, |chunks|) == |payload|
            else (exists j :: j in got && j < |chunks|) ==> Bytes(chunks, got, |chunks|) < |payload|
  {
    hide Bytes;
    BytesBound(chunks, got, payload, stream, |chunks|);
  }

  lemma HoldsPayload(chunks: seq<Chunk>, got: set<nat>, storage: seq<byte>, stream: nat, payload: seq<byte>)
    requires Tiles(chunks, stream, payload, 0) && Holds(chunks, got, storage) && |storage| == |payload|
    requires forall k :: 0 <= k < |chunks| ==> k in got
    ensures storage == payload
  {
    HoldsAll(chunks, got, storage, stream, payload, |chunks|);
    assert storage[..|payload|] == storage && payload[..|payload|] == payload;
  }

  lemma DeliverKeeps(box: Inbox, p: nat, payload: seq<byte>, chunks: seq<Chunk>, got: set<nat>, k: nat,
                     owned: bool, raw: seq<byte>)
    requires BoxOk(box) && Tiles(chunks, p, payload, 0) && k < |chunks| && k !in got && |raw| == |payload|
    requires forall j :: j in got ==> j < |chunks|
    requires StreamOk(box, p, payload, chunks, got, false)
    ensures chunks[k].total == |payload| && chunks[k].offset + |chunks[k].bytes| <= |payload|
    ensures StreamOk(Receive(box, chunks[k], owned, raw), p, payload, chunks, got + {k}, false)
  {
    hide Copied, Bytes, Chunks;
    var c := chunks[k];
    if c.offset == 0 && |c.bytes| == c.total && owned {
      OneChunk(chunks, p, payload, k);
      WholeChunk(chunks, p, payload, k);
    } else {
      NoBytes(chunks, |chunks|);
      PartialKeeps(p, payload, chunks, got, k, if p in box.partials then box.partials[p].storage else raw);
    }
  }

  lemma WholeChunk(chunks: seq<Chunk>, p: nat, payload: seq<byte>, k: nat)
    requires Tiles(chunks, p, payload, 0) && k < |chunks|
    requires chunks[k].offset == 0 && |chunks[k].bytes| == |payload|
    ensures chunks[k].bytes == payload
  {
    assert payload[0..|payload|] == payload;
  }

  lemma {:induction false} NoBytes(chunks: seq<Chunk>, n: nat)
    requires n <= |chunks|
    ensures Bytes(chunks, {}, n) == 0
  {
    if n > 0 { NoBytes(chunks, n - 1); }
  }

  lemma OneOfMany(chunks: seq<Chunk>, p: nat, payload: seq<byte>, k: nat)
    requires Tiles(chunks, p, payload, 0) && k < |chunks| && |chunks| > 1
    ensures chunks[k].offset > 0 || |chunks[k].bytes| < |payload|
  {
    assert |chunks[0].bytes| > 0 && |chunks[1].bytes| > 0;
    Before(chunks, p, payload, 0, if k > 0 then k else 1);
  }

  /** A chunk that is the whole payload is the only one. */
  lemma OneChunk(chunks: seq<Chunk>, p: nat, payload: seq<byte>, k: nat)
    requires Tiles(chunks, p, payload, 0) && k < |chunks|
    requires chunks[k].offset == 0 && |chunks[k].bytes| == |payload|
    ensures |chunks| == 1
  {
    if |chunks| > 1 { OneOfMany(chunks, p, payload, k); }
  }

  lemma OthersKept(box: Inbox, c: Chunk, owned: bool, raw: seq<byte>, p: nat)
    requires BoxOk(box) && |raw| == c.total && c.offset + |c.bytes| <= c.total && c.stream != p
    ensures var after := Receive(box, c, owned, raw);
      && (p in after.partials <==> p in box.partials) && (p in box.partials ==> after.partials[p] == box.partials[p])
      && (p in after.complete <==> p in box.complete) && (p in box.complete ==> after.complete[p] == box.complete[p])
  {
  }

  // ---- The theorem ----

  ghost predicate Plan(w: Sent, events: seq<Event>) {
    SentOk(w) && Once(events) && forall i :: 0 <= i < |events| ==> EventOk(w, events[i])
  }

  lemma ArrivedNext(events: seq<Event>, p: nat)
    requires events != []
    ensures var e, before := events[|events| - 1], Arrived(events[..|events| - 1], p);
      Arrived(events, p) == if e.Deliver? && e.p == p then before + {e.k} else before
  {
    var n := |events| - 1;
    var front := events[..n];
    forall k | k in Arrived(events, p)
      ensures k in Arrived(front, p) || (events[n].Deliver? && events[n].p == p && k == events[n].k)
    {
      var i :| 0 <= i < |events| && events[i].Deliver? && events[i].p == p && events[i].k == k;
      if i < n { assert front[i] == events[i]; }
    }
    forall k | k in Arrived(front, p) ensures k in Arrived(events, p) {
      var i :| 0 <= i < |front| && front[i].Deliver? && front[i].p == p && front[i].k == k;
      assert events[i] == front[i];
    }
  }

  lemma NotArrivedYet(events: seq<Event>, p: nat)
    requires events != [] && Once(events) && events[|events| - 1].Deliver? && events[|events| - 1].p == p
    ensures events[|events| - 1].k !in Arrived(events[..|events| - 1], p)
  {
    var n := |events| - 1;
    var front := events[..n];
    forall j | j in Arrived(front, p) ensures j != events[n].k {
      var i :| 0 <= i < n && front[i].Deliver? && front[i].p == p && front[i].k == j;
      assert events[i] == front[i];
    }
  }

  lemma ApplyKeeps(w: Sent, box: Inbox, e: Event, p: nat, got: set<nat>, taken: bool)
    requires SentOk(w) && EventOk(w, e) && BoxOk(box) && p in w.payloads
    requires StreamOk(box, p, w.payloads[p], Cut(w, p), got, taken)
    requires forall j :: j in got ==> j < |Cut(w, p)|
    requires e.Deliver? && e.p == p ==> e.k !in got && !taken
    requires !(forall k :: 0 <= k < |Cut(w, p)| ==> k in got) ==> !taken
    ensures
      var now := if e.Deliver? && e.p == p then got + {e.k} else got;
      var done := taken || (e == TakeOut(p) && forall k :: 0 <= k < |Cut(w, p)| ==> k in got);
      StreamOk(Apply(w, box, e), p, w.payloads[p], Cut(w, p), now, done)
  {
    hide Chunks, Tiles, Receive, Bytes, Holds;
    ChunksTile(p, w.payloads[p], w.size, 0);
    match e
    case Deliver(q, k, owned, raw) =>
      CutFits(w, q, k);
      if q == p {
        DeliverKeeps(box, p, w.payloads[p], Cut(w, p), got, k, owned, raw);
      } else {
        OthersKept(box, Cut(w, q)[k], owned, raw, p);
      }
    case TakeOut(q) => HasChunks(w, p);
  }

  lemma HasChunks(w: Sent, p: nat)
    requires SentOk(w) && p in w.payloads
    ensures |Cut(w, p)| > 0
  {
  }

  lemma {:induction false} StreamKept(w: Sent, events: seq<Event>, p: nat)
    requires Plan(w, events) && p in w.payloads
    ensures StreamOk(After(w, events), p, w.payloads[p], Cut(w, p), Arrived(events, p), Taken(w, events, p))
    ensures Taken(w, events, p) ==> AllArrived(w, events, p)
    decreases |events|
  {
    hide Apply, StreamOk;
    if events == [] {
      Empty(w, p);
    } else {
      var n := |events| - 1;
      var e := events[n];
      StreamKept(w, events[..n], p);
      ArrivedNext(events, p);
      forall j | j in Arrived(events[..n], p) ensures j < |Cut(w, p)| {
        var i :| 0 <= i < n && events[..n][i].Deliver? && events[..n][i].p == p && events[..n][i].k == j;
        assert EventOk(w, events[i]);
      }
      if e.Deliver? && e.p == p {
        NotArrivedYet(events, p);
        assert EventOk(w, e);
      }
      ApplyKeeps(w, After(w, events[..n]), e, p, Arrived(events[..n], p), Taken(w, events[..n], p));
    }
  }

  lemma Empty(w: Sent, p: nat)
    requires SentOk(w) && p in w.payloads
    ensures StreamOk(After(w, []), p, w.payloads[p], Cut(w, p), Arrived([], p), false)
  {
    assert Arrived([], p) == {};
  }

  /** Whatever the order in which the chunks of all payloads arrive and receive() is asked for streams: it
      finds stream `p` exactly when all its chunks have arrived and it was not taken before, and then it
      finds exactly the bytes that were sent. */
  lemma DeliveredWholeAndOnce(w: Sent, events: seq<Event>, p: nat)
    requires Plan(w, events) && p in w.payloads
    ensures p in After(w, events).complete <==> AllArrived(w, events, p) && !Taken(w, events, p)
    ensures p in After(w, events).complete ==> After(w, events).complete[p] == w.payloads[p]
    ensures Taken(w, events + [TakeOut(p)], p) <==> AllArrived(w, events, p)
  {
    StreamKept(w, events, p);
    HasChunks(w, p);
    if AllArrived(w, events, p) { assert 0 in Arrived(events, p); }
    assert (events + [TakeOut(p)])[..|events|] == events;
  }

  // ---- One payload from a sender to a receiver ----

  predicate Lower(k: nat, n: nat) { k < n }

  /** The first `n` chunks. */
  function Below(n: nat): (below: set<nat>)
    ensures forall k: nat {:trigger k in below} :: k in below <==> k < n
  {
    set k: nat | k < n && Lower(k, n)
  }

  /** Every stream but `p` is as it was. */
  ghost predicate OthersSame(a: Inbox, b: Inbox, p: nat) {
    && (forall q :: q != p ==> (q in a.partials <==> q in b.partials) && (q in a.complete <==> q in b.complete))
    && (forall q :: q != p && q in a.partials && q in b.partials ==> a.partials[q] == b.partials[q])
    && (forall q :: q != p && q in a.complete && q in b.complete ==> a.complete[q] == b.complete[q])
  }

  /** One frame of the payload arrives. */
  method ReceiveNext(receiver: StreamStrategy, p: nat, payload: seq<byte>, ghost chunks: seq<Chunk>, ghost k: nat,
                     frame: seq<byte>, owned: bool, raw: seq<byte>)
    requires receiver.Valid() && p < U64_LIMIT && |payload| < U64_LIMIT && |raw| == |payload|
    requires Tiles(chunks, p, payload, 0) && k < |chunks| && frame == ChunkFrame(chunks[k])
    requires StreamOk(receiver.Box(), p, payload, chunks, Below(k), false)
    modifies receiver`partials, receiver`complete
    ensures receiver.Valid() && StreamOk(receiver.Box(), p, payload, chunks, Below(k + 1), false)
    ensures OthersSame(old(receiver.Box()), receiver.Box(), p)
  {
    hide Copied, Bytes, StreamOk, ChunkFrame, ParseChunk, Tiles;
    ghost var c := chunks[k];
    ghost var box := receiver.Box();
    ChunkOf(chunks, p, payload, k);
    ChunkTravels(c);
    DeliverKeeps(box, p, payload, chunks, Below(k), k, owned, raw);
    forall q | q != p
      ensures var after := Receive(box, c, owned, raw);
        && (q in after.partials <==> q in box.partials) && (q in box.partials ==> after.partials[q] == box.partials[q])
        && (q in after.complete <==> q in box.complete) && (q in box.complete ==> after.complete[q] == box.complete[q])
    {
      OthersKept(box, c, owned, raw, q);
    }
    assert Below(k) + {k} == Below(k + 1);
    hide Receive;
    receiver.OnPayloadFrame(frame, owned, raw);
  }

  lemma ChunkOf(chunks: seq<Chunk>, p: nat, payload: seq<byte>, k: nat)
    requires Tiles(chunks, p, payload, 0) && k < |chunks|
    ensures chunks[k].stream == p && chunks[k].total == |payload| && chunks[k].offset + |chunks[k].bytes| <= |payload|
  {
  }

  /** A payload that a sender got out arrives: the reference that send() returned finds exactly its bytes at the receiver,
      whose other streams are as they were. */
  method Transfer(sender: StreamStrategy, receiver: StreamStrategy, payload: seq<byte>, room: nat, owned: bool,
                  raw: seq<byte>) returns (found: Option<seq<byte>>)
    requires sender != receiver && sender.Valid() && receiver.Valid()
    requires |payload| < U64_LIMIT && sender.nextStream < U64_LIMIT && |raw| == |payload|
    requires sender.nextStream !in receiver.partials && sender.nextStream !in receiver.complete
    modifies sender`nextStream, receiver`partials, receiver`complete
    ensures found.Some? <==> |Chunks(old(sender.nextStream), payload, sender.chunkBytes, 0)| <= room
    ensures found.Some? ==> found.value == payload && receiver.Box() == old(receiver.Box())
  {
    hide Chunks, Tiles, ChunkFrame, Reference, Value, Bytes, Holds;
    var stream := sender.nextStream;
    ghost var chunks := Chunks(stream, payload, sender.chunkBytes, 0);
    ChunksTile(stream, payload, sender.chunkBytes, 0);
    var frames, reference := sender.Send(payload, room);
    if reference.None? { return None; }
    ghost var box := receiver.Box();
    NoneBelow();
    for i := 0 to |frames|
      invariant sender.Valid() && receiver.Valid()
      invariant StreamOk(receiver.Box(), stream, payload, chunks, Below(i), false)
      invariant OthersSame(box, receiver.Box(), stream)
    {
      ReceiveNext(receiver, stream, payload, chunks, i, frames[i], owned, raw);
    }
    AllBelow(receiver.Box(), stream, payload, chunks);
    ReferenceTravels(stream);
    found := receiver.ReceivePayload(reference.value);
    assert receiver.partials == box.partials && receiver.complete == box.complete;
  }

  lemma NoneBelow()
    ensures Below(0) == {}
  {
  }

  lemma AllBelow(box: Inbox, p: nat, payload: seq<byte>, chunks: seq<Chunk>)
    requires Tiles(chunks, p, payload, 0) && StreamOk(box, p, payload, chunks, Below(|chunks|), false)
    ensures p !in box.partials && p in box.complete && box.complete[p] == payload
  {
    assert 0 in Below(|chunks|);
  }
}
