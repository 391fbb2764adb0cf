/** Streams of frames: decoding is independent of how the bytes were cut, and it is the exact
    inverse of encoding. */
module Framing {
  import opened Wrappers
  import opened Protocol

  // ------------------------------------------------------------ one frame

  /** A frame is found exactly when the buffer starts with that frame's encoding. */
  lemma GotIffEncoding(src: seq<byte>, f: Frame, rest: seq<byte>)
    ensures ScanFrame(src) == Got(f, rest) <==>
              |f.payload| <= MAX_PAYLOAD && src == EncodeFrame(f) + rest
  {
    if ScanFrame(src) == Got(f, rest) {
      var length := FromBe(src[1..5]);
      BigEndianUnique(src[1..5]);
      TagsInverse(src[0], f.frameType);
      assert src == [src[0]] + src[1..5] + src[5..5 + length] + src[5 + length..];
    }
    if |f.payload| <= MAX_PAYLOAD && src == EncodeFrame(f) + rest {
      var length := |f.payload|;
      BigEndianInverse(length);
      assert src[1..5] == ToBe(length);
      TagsInverse(src[0], f.frameType);
      assert src[5..5 + length] == f.payload;
      assert src[5 + length..] == rest;
    }
  }

  /** A verdict once reached is not changed by bytes that arrive later. */
  lemma ScanStable(src: seq<byte>, more: seq<byte>)
    ensures ScanFrame(src).Got? ==> ScanFrame(src + more) == Got(ScanFrame(src).frame, ScanFrame(src).rest + more)
    ensures ScanFrame(src).Bad? ==> ScanFrame(src + more) == ScanFrame(src)
  {
    if |src| >= HEADER {
      assert (src + more)[1..5] == src[1..5];
      if ScanFrame(src).Got? {
        var f, rest := ScanFrame(src).frame, ScanFrame(src).rest;
        GotIffEncoding(src, f, rest);
        assert EncodeFrame(f) + rest + more == EncodeFrame(f) + (rest + more);
        GotIffEncoding(src + more, f, rest + more);
      }
    }
  }

  /** The header alone decides an error: it is reported before any payload byte is buffered. */
  lemma BadIffHeader(src: seq<byte>)
    ensures ScanFrame(src).Bad? <==>
              |src| >= 5 && (FromBe(src[1..5]) > 16777216 || forall t: FrameType :: ToByte(t) != src[0])
    ensures ScanFrame(src).Bad? ==>
              ScanFrame(src).error == if FromBe(src[1..5]) > 16777216 then PayloadTooLarge(FromBe(src[1..5]))
                                      else UnknownFrameType(src[0])
  {
    if |src| >= HEADER {
      forall t: FrameType
        ensures FromU8(src[0]) == Some(t) <==> ToByte(t) == src[0]
      {
        TagsInverse(src[0], t);
      }
      if FromU8(src[0]).Some? {
        assert ToByte(FromU8(src[0]).value) == src[0];
      }
    }
  }

  // -------------------------------------------------------- whole buffers

  /** How a decode loop ends: waiting with undecoded bytes, or failed for good. */
  datatype End = Waiting(leftover: seq<byte>) | Failed(error: DecodeError)

  /** Decode until the buffer yields nothing more. */
  function DecodeAll(src: seq<byte>): (r: (seq<Frame>, End))
    ensures r.1.Waiting? ==> |r.1.leftover| <= |src|
    decreases |src|
  {
    match ScanFrame(src)
    case NeedMore => ([], Waiting(src))
    case Bad(e) => ([], Failed(e))
    case Got(f, rest) =>
      var tail := DecodeAll(rest);
      ([f] + tail.0, tail.1)
  }

  /** A reader that has been fed some bytes: frames so far, and where it stands. */
  datatype Reader = Reader(frames: seq<Frame>, end: End)

  function Feed(r: Reader, chunk: seq<byte>): Reader {
    match r.end
    case Failed(_) => r
    case Waiting(left) =>
      var d := DecodeAll(left + chunk);
      Reader(r.frames + d.0, d.1)
  }

  function FeedAll(r: Reader, chunks: seq<seq<byte>>): Reader
    decreases |chunks|
  {
    if chunks == [] then r else FeedAll(Feed(r, chunks[0]), chunks[1..])
  }

  function Concat(chunks: seq<seq<byte>>): seq<byte> {
    if chunks == [] then [] else chunks[0] + Concat(chunks[1..])
  }

  lemma DecodeGot(src: seq<byte>, f: Frame, rest: seq<byte>)
    requires ScanFrame(src) == Got(f, rest)
    ensures DecodeAll(src) == ([f] + DecodeAll(rest).0, DecodeAll(rest).1)
  {
  }

  lemma {:induction false} DecodeAllAppend(a: seq<byte>, b: seq<byte>)
    ensures var d := DecodeAll(a);
            DecodeAll(a + b) ==
            match d.1
            case Failed(_) => d
            case Waiting(left) => (d.0 + DecodeAll(left + b).0, DecodeAll(left + b).1)
    decreases |a|
  {
    ScanStable(a, b);
    match ScanFrame(a) {
      case NeedMore => assert [] + DecodeAll(a + b).0 == DecodeAll(a + b).0;
      case Bad(_) =>
      case Got(f, rest) =>
        DecodeAllAppend(rest, b);
        DecodeGot(a, f, rest);
        DecodeGot(a + b, f, rest + b);
        if DecodeAll(rest).1.Waiting? {
          var left := DecodeAll(rest).1.leftover;
          Assoc([f], DecodeAll(rest).0, DecodeAll(left + b).0);
        }
    }
  }

  /** Chunk-agnostic decoding: for every byte stream and every way to cut it, feeding the pieces one
      by one gives the same frames and the same error or leftover as the whole stream at once. */
  lemma {:induction false} ChunkAgnostic(seen: seq<byte>, chunks: seq<seq<byte>>)
    ensures var d := DecodeAll(seen);
            var w := DecodeAll(seen + Concat(chunks));
            FeedAll(Reader(d.0, d.1), chunks) == Reader(w.0, w.1)
    decreases |chunks|
  {
    if chunks == [] {
      assert seen + [] == seen;
    } else {
      var next := seen + chunks[0];
      DecodeAllAppend(seen, chunks[0]);
      assert Feed(Reader(DecodeAll(seen).0, DecodeAll(seen).1), chunks[0]) == Reader(DecodeAll(next).0, DecodeAll(next).1);
      ChunkAgnostic(next, chunks[1..]);
      assert seen + Concat(chunks) == next + Concat(chunks[1..]);
    }
  }

  /** The read side of a framed stream: append what arrived, then decode until nothing comes. */
  class FrameStream {
    const buffer: FrameBuffer
    var frames: seq<Frame>
    var failure: Option<DecodeError>

    ghost function View(): Reader
      reads this, buffer
    {
      Reader(frames, if failure.Some? then Failed(failure.value) else Waiting(buffer.bytes))
    }

    constructor ()
      ensures fresh(buffer)
      ensures View() == Reader([], Waiting([]))
    {
      buffer := new FrameBuffer();
      frames, failure := [], None;
    }

    method Receive(chunk: seq<byte>)
      modifies this, buffer
      ensures View() == Feed(old(View()), chunk)
    {
      if failure.Some? {
        return;
      }
      buffer.bytes := buffer.bytes + chunk;
      ghost var all := DecodeAll(buffer.bytes);
      ghost var before := frames;
      while true
        invariant failure == None
        invariant before + all.0 == frames + DecodeAll(buffer.bytes).0
        invariant all.1 == DecodeAll(buffer.bytes).1
        decreases |buffer.bytes|
      {
        ghost var pending := buffer.bytes;
        var r := buffer.Decode();
        match r {
          case Err(e) =>
            failure := Some(e);
            return;
          case Ok(None) =>
            return;
          case Ok(Some(f)) =>
            assert DecodeAll(pending).0 == [f] + DecodeAll(buffer.bytes).0;
            assert frames + ([f] + DecodeAll(buffer.bytes).0) == (frames + [f]) + DecodeAll(buffer.bytes).0;
            frames := frames + [f];
        }
      }
    }
  }

  // ------------------------------------------------- encode against decode

  ghost predicate Encodable(frames: seq<Frame>) {
    forall i :: 0 <= i < |frames| ==> |frames[i].payload| <= MAX_PAYLOAD
  }

  function EncodeAll(frames: seq<Frame>): seq<byte>
    requires Encodable(frames)
  {
    if frames == [] then [] else EncodeFrame(frames[0]) + EncodeAll(frames[1..])
  }

  lemma Assoc<T>(a: seq<T>, b: seq<T>, c: seq<T>)
    ensures (a + b) + c == a + (b + c)
  {
  }

  lemma DecodeFirst(f: Frame, rest: seq<byte>)
    requires |f.payload| <= MAX_PAYLOAD
    ensures DecodeAll(EncodeFrame(f) + rest) == ([f] + DecodeAll(rest).0, DecodeAll(rest).1)
  {
    GotIffEncoding(EncodeFrame(f) + rest, f, rest);
  }

  lemma {:induction false} EncodedThen(frames: seq<Frame>, tail: seq<byte>)
    requires Encodable(frames)
    ensures DecodeAll(EncodeAll(frames) + tail) == (frames + DecodeAll(tail).0, DecodeAll(tail).1)
    decreases |frames|
  {
    if frames == [] {
      assert EncodeAll(frames) + tail == tail;
      assert frames + DecodeAll(tail).0 == DecodeAll(tail).0;
    } else {
      var rest := EncodeAll(frames[1..]);
      EncodedThen(frames[1..], tail);
      DecodeFirst(frames[0], rest + tail);
      Assoc(EncodeFrame(frames[0]), rest, tail);
      var more := DecodeAll(tail).0;
      assert frames == [frames[0]] + frames[1..];
      Assoc([frames[0]], frames[1..], more);
    }
  }

  /** Any list of frames within the cap decodes back to itself, with nothing left over. */
  lemma RoundTrip(frames: seq<Frame>)
    requires Encodable(frames)
    ensures DecodeAll(EncodeAll(frames)) == (frames, Waiting([]))
  {
    EncodedThen(frames, []);
    assert EncodeAll(frames) + [] == EncodeAll(frames);
    assert frames + [] == frames;
  }

  /** Conversely every stream is the encodings of the frames it yields, followed by what it ends on:
      the leftover, or bytes whose header is already an error. */
  lemma {:induction false} DecodedIsEncoded(src: seq<byte>) returns (tail: seq<byte>)
    ensures Encodable(DecodeAll(src).0)
    ensures src == EncodeAll(DecodeAll(src).0) + tail
    ensures match DecodeAll(src).1
            case Waiting(left) => tail == left && ScanFrame(tail).NeedMore?
            case Failed(e) => ScanFrame(tail) == Bad(e)
    decreases |src|
  {
    match ScanFrame(src) {
      case NeedMore => tail := src;
      case Bad(_) => tail := src;
      case Got(f, rest) =>
        GotIffEncoding(src, f, rest);
        tail := DecodedIsEncoded(rest);
        assert DecodeAll(src).0[1..] == DecodeAll(rest).0;
        assert EncodeFrame(f) + (EncodeAll(DecodeAll(rest).0) + tail) == (EncodeFrame(f) + EncodeAll(DecodeAll(rest).0)) + tail;
    }
  }

  lemma {:induction false} DecodedNeverFails(src: seq<byte>, more: seq<byte>, frames: seq<Frame>)
    requires Encodable(frames)
    requires src + more == EncodeAll(frames)
    ensures DecodeAll(src).1.Waiting?
    ensures DecodeAll(src).0 <= frames
  {
    RoundTrip(frames);
    DecodeAllAppend(src, more);
  }

  /** What is left over after decoding a cut stream is a proper prefix of the next frame. */
  lemma LeftoverIsPartial(tail: seq<byte>, more: seq<byte>, f: Frame, rest: seq<byte>)
    requires |f.payload| <= MAX_PAYLOAD
    requires tail + more == EncodeFrame(f) + rest
    requires ScanFrame(tail).NeedMore?
    ensures |tail| < |EncodeFrame(f)|
  {
    var n := |EncodeFrame(f)|;
    if |tail| >= n {
      assert (tail + more)[..n] == EncodeFrame(f);
      assert tail == EncodeFrame(f) + tail[n..];
      GotIffEncoding(tail, f, tail[n..]);
      assert false;
    }
  }

  lemma LeftoverOf(frames: seq<Frame>, done: seq<Frame>, tail: seq<byte>, more: seq<byte>)
    requires Encodable(frames) && done <= frames
    requires EncodeAll(done) + tail + more == EncodeAll(frames)
    requires ScanFrame(tail).NeedMore?
    ensures |done| == |frames| ==> tail + more == []
    ensures |done| < |frames| ==> |tail| < |EncodeFrame(frames[|done|])|
  {
    EncodeAllSplit(frames, |done|);
    assert frames[..|done|] == done;
    Assoc(EncodeAll(done), tail, more);
    SameTail(EncodeAll(done), tail + more, EncodeAll(frames[|done|..]));
    if |done| < |frames| {
      assert frames[|done|..][1..] == frames[|done| + 1..];
      LeftoverIsPartial(tail, more, frames[|done|], EncodeAll(frames[|done| + 1..]));
    }
  }

  /** Any byte prefix of an encoded list decodes, without error, to a prefix of that list; the
      leftover is exactly the part of the next frame that has arrived. */
  lemma PrefixDecodes(frames: seq<Frame>, cut: nat)
    requires Encodable(frames)
    requires cut <= |EncodeAll(frames)|
    ensures var d := DecodeAll(EncodeAll(frames)[..cut]);
            && d.1.Waiting?
            && d.0 <= frames
            && EncodeAll(frames)[..cut] == EncodeAll(d.0) + d.1.leftover
            && (|d.0| == |frames| ==> cut == |EncodeAll(frames)|)
            && (|d.0| < |frames| ==> |d.1.leftover| < |EncodeFrame(frames[|d.0|])|)
  {
    var src, more := EncodeAll(frames)[..cut], EncodeAll(frames)[cut..];
    assert src + more == EncodeAll(frames);
    DecodedNeverFails(src, more, frames);
    var tail := DecodedIsEncoded(src);
    LeftoverOf(frames, DecodeAll(src).0, tail, more);
  }

  lemma SameTail(a: seq<byte>, x: seq<byte>, y: seq<byte>)
    requires a + x == a + y
    ensures x == y
  {
    assert x == (a + x)[|a|..];
    assert y == (a + y)[|a|..];
  }

  lemma {:induction false} EncodeAllSplit(frames: seq<Frame>, n: nat)
    requires Encodable(frames)
    requires n <= |frames|
    ensures EncodeAll(frames) == EncodeAll(frames[..n]) + EncodeAll(frames[n..])
    decreases n
  {
    if n == 0 {
      assert frames[0..] == frames;
    } else {
      EncodeAllSplit(frames[1..], n - 1);
      assert frames[1..][..n - 1] == frames[..n][1..];
      assert frames[1..][n - 1..] == frames[n..];
    }
  }
}
