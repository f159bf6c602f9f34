/** Splitting a byte stream into frames: a u32 body length, a u8 type, the body. */
module FrameReaders {
  import opened LittleEndian

  function BodyLength(s: seq<byte>): nat
    requires |s| >= HEADER_BYTES
  {
    Value(s[..4])
  }

  /** What the start of a stream shows: not a whole frame yet, a header over the limit, or a frame of `n` bytes. */
  datatype Head = Short | Over | Whole(n: nat)

  function HeadOf(limit: nat, s: seq<byte>): (h: Head)
    ensures h.Whole? ==> HEADER_BYTES <= h.n <= |s|
  {
    if |s| < HEADER_BYTES then Short
    else if BodyLength(s) > limit then Over
    else if |s| < HEADER_BYTES + BodyLength(s) then Short
    else Whole(HEADER_BYTES + BodyLength(s))
  }

  datatype Split = Split(frames: seq<seq<byte>>, rest: seq<byte>, ok: bool)

  /** The frames a stream consists of, up to its incomplete tail or to the first frame over the limit. */
  function SplitStream(limit: nat, s: seq<byte>): Split
    decreases |s|
  {
    match HeadOf(limit, s)
    case Short => Split([], s, true)
    case Over => Split([], s, false)
    case Whole(n) =>
      var later := SplitStream(limit, s[n..]);
      Split([s[..n]] + later.frames, later.rest, later.ok)
  }

  function Flatten(pieces: seq<seq<byte>>): seq<byte> {
    if pieces == [] then [] else pieces[0] + Flatten(pieces[1..])
  }

  class FrameReader {
    const limit: nat
    var buffer: seq<byte>

    constructor (limit: nat)
      ensures this.limit == limit && buffer == []
    {
      this.limit := limit;
      buffer := [];
    }

    /** Appends `bytes` and delivers each frame they complete, in order. On a frame over the limit it stops
        and leaves the buffer as it is, delivered frames included. */
    method Feed(bytes: seq<byte>) returns (ok: bool, frames: seq<seq<byte>>)
      modifies this
      ensures ok == SplitStream(limit, old(buffer) + bytes).ok
      ensures frames == SplitStream(limit, old(buffer) + bytes).frames
      ensures buffer == if ok then SplitStream(limit, old(buffer) + bytes).rest else old(buffer) + bytes
    {
      hide SplitStream, BodyLength;
      buffer := buffer + bytes;
      frames := [];
      var offset := 0;
      ghost var all := SplitStream(limit, buffer);
      while |buffer| - offset >= HEADER_BYTES
        invariant offset <= |buffer| && buffer == old(buffer) + bytes
        invariant all.ok == SplitStream(limit, buffer[offset..]).ok
        invariant all.rest == SplitStream(limit, buffer[offset..]).rest
        invariant all.frames == frames + SplitStream(limit, buffer[offset..]).frames
      {
        var body := ReadValue(buffer[offset..][..4]);
        SplitCases(limit, buffer[offset..], body);
        if body > limit { return false, frames; }
        var frameBytes := HEADER_BYTES + body;
        if |buffer| - offset < frameBytes { break; }
        DropDrop(buffer, offset, frameBytes);
        frames := frames + [buffer[offset..offset + frameBytes]];
        offset := offset + frameBytes;
      }
      if |buffer| - offset < HEADER_BYTES { SplitShort(limit, buffer[offset..]); }
      buffer := buffer[offset..];
      return true, frames;
    }
  }

  /** One turn of splitting, by the body length in the header. */
  lemma SplitCases(limit: nat, s: seq<byte>, body: nat)
    requires |s| >= HEADER_BYTES && body == Value(s[..4])
    ensures var n := HEADER_BYTES + body;
      SplitStream(limit, s) ==
        if body > limit then Split([], s, false)
        else if |s| < n then Split([], s, true)
        else
          var later := SplitStream(limit, s[n..]);
          Split([s[..n]] + later.frames, later.rest, later.ok)
  {
    hide Value;
  }

  lemma SplitShort(limit: nat, s: seq<byte>)
    requires |s| < HEADER_BYTES
    ensures SplitStream(limit, s) == Split([], s, true)
  {
  }

  lemma DropDrop(s: seq<byte>, a: nat, b: nat)
    requires a + b <= |s|
    ensures s[a..][..b] == s[a..a + b] && s[a..][b..] == s[a + b..]
  {
  }

  // ---- Cutting the stream ----

  lemma HeadAppend(limit: nat, s: seq<byte>, more: seq<byte>)
    ensures !HeadOf(limit, s).Short? ==> HeadOf(limit, s + more) == HeadOf(limit, s)
  {
    hide Value;
    if |s| >= HEADER_BYTES { assert (s + more)[..4] == s[..4]; }
  }

  /** A longer stream has the same frames first, and stops where the shorter one stopped. */
  lemma {:induction false} SplitAppend(limit: nat, s: seq<byte>, more: seq<byte>)
    ensures var a, b := SplitStream(limit, s), SplitStream(limit, s + more);
      if a.ok then
        && b.frames == a.frames + SplitStream(limit, a.rest + more).frames
        && b.rest == SplitStream(limit, a.rest + more).rest
        && b.ok == SplitStream(limit, a.rest + more).ok
      else b.frames == a.frames && !b.ok
    decreases |s|
  {
    hide HeadOf;
    HeadAppend(limit, s, more);
    match HeadOf(limit, s)
    case Whole(n) =>
      HeadWhole(limit, s);
      SplitAppend(limit, s[n..], more);
      assert (s + more)[n..] == s[n..] + more && (s + more)[..n] == s[..n];
    case _ =>
  }

  lemma HeadWhole(limit: nat, s: seq<byte>)
    ensures HeadOf(limit, s).Whole? ==> HEADER_BYTES <= HeadOf(limit, s).n <= |s|
  {
  }

  /** What feeding `pieces` one after another does, until a call returns false. */
  function FeedAll(limit: nat, buffer: seq<byte>, pieces: seq<seq<byte>>): Split
    decreases |pieces|
  {
    if pieces == [] then Split([], buffer, true)
    else
      var first := SplitStream(limit, buffer + pieces[0]);
      if !first.ok then Split(first.frames, buffer + pieces[0], false)
      else
        var later := FeedAll(limit, first.rest, pieces[1..]);
        Split(first.frames + later.frames, later.rest, later.ok)
  }

  /** A buffer holds no whole frame and no oversized header between calls. */
  ghost predicate Incomplete(limit: nat, tail: seq<byte>) { HeadOf(limit, tail).Short? }

  lemma {:induction false} RestIsIncomplete(limit: nat, s: seq<byte>)
    ensures SplitStream(limit, s).ok ==> Incomplete(limit, SplitStream(limit, s).rest)
    decreases |s|
  {
    hide Value;
    if HeadOf(limit, s).Whole? { RestIsIncomplete(limit, s[HeadOf(limit, s).n..]); }
  }

  lemma {:induction false} FeedPieces(limit: nat, buffer: seq<byte>, pieces: seq<seq<byte>>)
    requires Incomplete(limit, buffer)
    ensures var fed, whole := FeedAll(limit, buffer, pieces), SplitStream(limit, buffer + Flatten(pieces));
      fed.frames == whole.frames && fed.ok == whole.ok && (fed.ok ==> fed.rest == whole.rest)
    decreases |pieces|
  {
    if pieces == [] {
      assert buffer + Flatten(pieces) == buffer;
    } else {
      var s := buffer + pieces[0];
      var first := SplitStream(limit, s);
      SplitAppend(limit, s, Flatten(pieces[1..]));
      assert buffer + Flatten(pieces) == s + Flatten(pieces[1..]);
      if first.ok {
        RestIsIncomplete(limit, s);
        FeedPieces(limit, first.rest, pieces[1..]);
      }
    }
  }

  /** However a stream is cut into pieces, a new reader delivers the same frames, keeps the same tail, and an
      oversized length stops it after the same frame. */
  lemma CutsDoNotMatter(limit: nat, pieces: seq<seq<byte>>, others: seq<seq<byte>>)
    requires Flatten(pieces) == Flatten(others)
    ensures FeedAll(limit, [], pieces).frames == FeedAll(limit, [], others).frames
    ensures FeedAll(limit, [], pieces).ok == FeedAll(limit, [], others).ok
    ensures FeedAll(limit, [], pieces).ok ==> FeedAll(limit, [], pieces).rest == FeedAll(limit, [], others).rest
  {
    FeedPieces(limit, [], pieces);
    FeedPieces(limit, [], others);
  }

  // ---- Streams of frames ----

  ghost predicate IsFrame(limit: nat, frame: seq<byte>) { HeadOf(limit, frame) == Whole(|frame|) }

  /** A stream that starts with an oversized header. */
  ghost predicate Oversized(limit: nat, s: seq<byte>) { HeadOf(limit, s).Over? }

  lemma {:induction false} SplitOfFrames(limit: nat, frames: seq<seq<byte>>, tail: seq<byte>)
    requires forall i :: 0 <= i < |frames| ==> IsFrame(limit, frames[i])
    requires Incomplete(limit, tail) || Oversized(limit, tail)
    ensures SplitStream(limit, Flatten(frames) + tail) == Split(frames, tail, Incomplete(limit, tail))
    decreases |frames|
  {
    hide HeadOf;
    if frames == [] {
      assert Flatten(frames) + tail == tail;
    } else {
      var s, f, later := Flatten(frames) + tail, frames[0], Flatten(frames[1..]) + tail;
      assert s == f + later;
      HeadAppend(limit, f, later);
      assert s[..|f|] == f && s[|f|..] == later;
      SplitOfFrames(limit, frames[1..], tail);
    }
  }

  /** Whole frames within the limit, then an incomplete one or one over the limit, cut anywhere: exactly those
      frames come out, in order; the incomplete tail is kept, and an oversized one stops the stream. */
  lemma DeliversExactlyTheFrames(limit: nat, frames: seq<seq<byte>>, tail: seq<byte>, pieces: seq<seq<byte>>)
    requires forall i :: 0 <= i < |frames| ==> IsFrame(limit, frames[i])
    requires Incomplete(limit, tail) || Oversized(limit, tail)
    requires Flatten(pieces) == Flatten(frames) + tail
    ensures FeedAll(limit, [], pieces).frames == frames
    ensures FeedAll(limit, [], pieces).ok <==> Incomplete(limit, tail)
    ensures FeedAll(limit, [], pieces).ok ==> FeedAll(limit, [], pieces).rest == tail
  {
    FeedPieces(limit, [], pieces);
    SplitOfFrames(limit, frames, tail);
    assert [] + Flatten(pieces) == Flatten(pieces);
  }

  lemma FrameAt(limit: nat, s: seq<byte>)
    requires HeadOf(limit, s).Whole?
    ensures HeadOf(limit, s).n <= |s| && IsFrame(limit, s[..HeadOf(limit, s).n])
  {
    hide Value;
    assert s[..HeadOf(limit, s).n][..4] == s[..4];
  }

  /** Conversely every stream is its frames and its rest: nothing is lost or made up. */
  lemma {:induction false} SplitKeepsBytes(limit: nat, s: seq<byte>)
    ensures Flatten(SplitStream(limit, s).frames) + SplitStream(limit, s).rest == s
    decreases |s|
  {
    hide HeadOf;
    match HeadOf(limit, s)
    case Whole(n) =>
      HeadWhole(limit, s);
      var later := SplitStream(limit, s[n..]);
      SplitKeepsBytes(limit, s[n..]);
      assert ([s[..n]] + later.frames)[1..] == later.frames;
      assert Flatten([s[..n]] + later.frames) == s[..n] + Flatten(later.frames);
      Regroup(s[..n], Flatten(later.frames), later.rest);
      assert s == s[..n] + s[n..];
    case _ => assert Flatten([]) + s == s;
  }

  /** What it delivers are whole frames within the limit; it stops before an incomplete or oversized one. */
  lemma {:induction false} SplitsIntoFrames(limit: nat, s: seq<byte>)
    ensures forall i :: 0 <= i < |SplitStream(limit, s).frames| ==> IsFrame(limit, SplitStream(limit, s).frames[i])
    ensures if SplitStream(limit, s).ok then Incomplete(limit, SplitStream(limit, s).rest)
            else Oversized(limit, SplitStream(limit, s).rest)
    decreases |s|
  {
    hide Value, BodyLength;
    match HeadOf(limit, s)
    case Whole(n) =>
      FrameAt(limit, s);
      SplitsIntoFrames(limit, s[n..]);
    case _ =>
  }
}
