/** One direction of a connection, from the frames handed to the sender's `Framed` to the frames
    the receiver's `Framed` yields. Bytes wait in the sender's write buffer, then in the socket,
    then in the receiver's read buffer; each hop moves an arbitrary number of them. */
module Link {
  import opened Wrappers
  import opened Protocol
  import Framing

  datatype Link = Link(
    sent: seq<Message>,   // messages accepted by the encoder, in order
    got: nat,             // how many of them the receiver has taken out again
    wbuf: seq<byte>,      // encoded, not yet written to the socket
    flight: seq<byte>,    // in the socket
    rbuf: seq<byte>,      // read from the socket, not yet decoded
    broken: bool,         // a socket write has failed; it never works again
    rejected: bool)       // the encoder refused the latest message

  const FRESH := Link([], 0, [], [], [], false, false)

  function Wire(json: Json, m: Message): Option<Frame> {
    match IntoFrame(json, m)
    case Err(_) => None
    case Ok(f) => if |f.payload| > MAX_PAYLOAD then None else Some(f)
  }

  /** `send`: into a frame, then into the write buffer; either can refuse, leaving no byte behind. */
  function Push(json: Json, l: Link, m: Message): Link {
    match Wire(json, m)
    case None => l.(rejected := true)
    case Some(f) => l.(sent := l.sent + [m], wbuf := l.wbuf + EncodeFrame(f), rejected := false)
  }

  function Flush(l: Link, k: nat): Link
    requires k <= |l.wbuf|
  {
    l.(flight := l.flight + l.wbuf[..k], wbuf := l.wbuf[k..])
  }

  function Deliver(l: Link, k: nat): Link
    requires k <= |l.flight|
  {
    l.(rbuf := l.rbuf + l.flight[..k], flight := l.flight[k..])
  }

  function Pop(l: Link): Link
    requires ScanFrame(l.rbuf).Got?
  {
    l.(got := l.got + 1, rbuf := ScanFrame(l.rbuf).rest)
  }

  function Encoding(json: Json, ms: seq<Message>): seq<byte> {
    if ms == [] then []
    else (match Wire(json, ms[0]) case Some(f) => EncodeFrame(f) case None => []) + Encoding(json, ms[1..])
  }

  ghost predicate AllWired(json: Json, ms: seq<Message>) {
    forall m <- ms :: Wire(json, m).Some?
  }

  /** Nothing is lost, duplicated or reordered between the two ends: what is under way is exactly
      the encoding of the messages not yet taken. */
  ghost predicate Intact(json: Json, l: Link) {
    && l.got <= |l.sent|
    && AllWired(json, l.sent)
    && l.rbuf + l.flight + l.wbuf == Encoding(json, l.sent[l.got..])
  }

  lemma {:induction false} EncodingSnoc(json: Json, ms: seq<Message>, m: Message)
    requires Wire(json, m).Some?
    ensures Encoding(json, ms + [m]) == Encoding(json, ms) + EncodeFrame(Wire(json, m).value)
    decreases |ms|
  {
    var e := EncodeFrame(Wire(json, m).value);
    if ms == [] {
      assert ms + [m] == [m];
      assert [m][1..] == [];
      assert e + [] == e && [] + e == e;
    } else {
      EncodingSnoc(json, ms[1..], m);
      assert (ms + [m])[1..] == ms[1..] + [m];
      var first := match Wire(json, ms[0]) case Some(f) => EncodeFrame(f) case None => [];
      Framing.Assoc(first, Encoding(json, ms[1..]), e);
    }
  }

  lemma PushIntact(json: Json, l: Link, m: Message)
    requires Intact(json, l)
    ensures Intact(json, Push(json, l, m))
  {
    if Wire(json, m).Some? {
      EncodingSnoc(json, l.sent[l.got..], m);
      assert (l.sent + [m])[l.got..] == l.sent[l.got..] + [m];
      Framing.Assoc(l.rbuf + l.flight, l.wbuf, EncodeFrame(Wire(json, m).value));
    }
  }

  lemma MoveBytes(a: seq<byte>, b: seq<byte>, c: seq<byte>, k: nat)
    requires k <= |b|
    ensures a + b + c == (a + b[..k]) + b[k..] + c
  {
  }

  lemma FlushIntact(json: Json, l: Link, k: nat)
    requires Intact(json, l) && k <= |l.wbuf|
    ensures Intact(json, Flush(l, k))
  {
    MoveBytes(l.rbuf + l.flight, l.wbuf, [], k);
    Framing.Assoc(l.rbuf, l.flight, l.wbuf[..k]);
    Framing.Assoc(l.rbuf + l.flight, l.wbuf[..k], l.wbuf[k..]);
    assert l.wbuf[..k] + l.wbuf[k..] == l.wbuf;
  }

  lemma DeliverIntact(json: Json, l: Link, k: nat)
    requires Intact(json, l) && k <= |l.flight|
    ensures Intact(json, Deliver(l, k))
  {
    MoveBytes(l.rbuf, l.flight, l.wbuf, k);
  }

  /** A buffer holding the first bytes of `f` and what follows can only scan to `f`. */
  lemma ScanOfEncoded(buf: seq<byte>, more: seq<byte>, f: Frame, tail: seq<byte>)
    requires |f.payload| <= MAX_PAYLOAD
    requires buf + more == EncodeFrame(f) + tail
    ensures !ScanFrame(buf).Bad?
    ensures ScanFrame(buf).Got? ==> ScanFrame(buf).frame == f && ScanFrame(buf).rest + more == tail
  {
    Framing.ScanStable(buf, more);
    Framing.GotIffEncoding(buf + more, f, tail);
  }

  lemma Regroup(a: seq<byte>, b: seq<byte>, c: seq<byte>, whole: seq<byte>)
    requires a + b + c == whole
    ensures a + (b + c) == whole
  {
    Framing.Assoc(a, b, c);
  }

  lemma EncodingHead(json: Json, ms: seq<Message>, i: nat)
    requires i < |ms| && Wire(json, ms[i]).Some?
    ensures Encoding(json, ms[i..]) == EncodeFrame(Wire(json, ms[i]).value) + Encoding(json, ms[i + 1..])
  {
    assert ms[i..][1..] == ms[i + 1..];
  }

  /** Whatever the receiver decodes is the next message that was sent, intact; and its decoder
      never meets an error. */
  lemma Receive(json: Json, l: Link)
    requires Faithful(json) && Intact(json, l)
    ensures !ScanFrame(l.rbuf).Bad?
    ensures ScanFrame(l.rbuf).Got? ==>
              && l.got < |l.sent|
              && FromFrame(json, ScanFrame(l.rbuf).frame) == Ok(l.sent[l.got])
              && Intact(json, Pop(l))
  {
    var more := l.flight + l.wbuf;
    Regroup(l.rbuf, l.flight, l.wbuf, Encoding(json, l.sent[l.got..]));
    if l.got == |l.sent| {
      assert l.sent[l.got..] == [];
      assert |l.rbuf + more| == 0;
      assert |l.rbuf| == 0;
    } else {
      var m := l.sent[l.got];
      assert m in l.sent;
      EncodingHead(json, l.sent, l.got);
      ScanOfEncoded(l.rbuf, more, Wire(json, m).value, Encoding(json, l.sent[l.got + 1..]));
      MessageRoundTrip(json, m);
      if ScanFrame(l.rbuf).Got? {
        Framing.Assoc(ScanFrame(l.rbuf).rest, l.flight, l.wbuf);
      }
    }
  }
}
