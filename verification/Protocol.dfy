/** The wire protocol: frame tags, typed messages, and the mutable codec buffer.
    Struct payloads go through an abstract serializer `Json`; stream payloads are
    the bytes themselves. */
module Protocol {
  import opened Wrappers

  newtype byte = x: int | 0 <= x < 256

  const MAX_PAYLOAD: nat := 16 * 1024 * 1024

  const HEADER: nat := 5

  const CURRENT_VERSION: string := "0.11.1"

  const SIGINT: byte := 2
  const SIGTERM: byte := 15

  datatype FrameType =
    | RequestTag | StdinTag | StdoutTag | StderrTag | ExitTag | ErrorTag
    | ServerStoppingTag | VersionTag | SignalTag | RequestVersionTag | ServerVersionTag

  function FromU8(b: byte): Option<FrameType> {
    match b
    case 0x01 => Some(RequestTag)
    case 0x02 => Some(StdinTag)
    case 0x03 => Some(StdoutTag)
    case 0x04 => Some(StderrTag)
    case 0x05 => Some(ExitTag)
    case 0x06 => Some(ErrorTag)
    case 0x07 => Some(ServerStoppingTag)
    case 0x08 => Some(VersionTag)
    case 0x09 => Some(SignalTag)
    case 0x0A => Some(RequestVersionTag)
    case 0x0B => Some(ServerVersionTag)
    case _ => None
  }

  function ToByte(t: FrameType): byte {
    match t
    case RequestTag => 0x01
    case StdinTag => 0x02
    case StdoutTag => 0x03
    case StderrTag => 0x04
    case ExitTag => 0x05
    case ErrorTag => 0x06
    case ServerStoppingTag => 0x07
    case VersionTag => 0x08
    case SignalTag => 0x09
    case RequestVersionTag => 0x0A
    case ServerVersionTag => 0x0B
  }

  /** The two tag tables are inverse, in both directions. */
  lemma TagsInverse(b: byte, t: FrameType)
    ensures FromU8(b) == Some(t) <==> ToByte(t) == b
  {
    match t {
      case RequestTag => case StdinTag => case StdoutTag => case StderrTag =>
      case ExitTag => case ErrorTag => case ServerStoppingTag => case VersionTag =>
      case SignalTag => case RequestVersionTag => case ServerVersionTag =>
    }
  }

  datatype Frame = Frame(frameType: FrameType, payload: seq<byte>)

  datatype DecodeError =
    | UnknownFrameType(tag: byte)
    | PayloadTooLarge(length: nat)
    | BadJson
    | NonEmptyServerStopping(size: nat)
    | InvalidExit
    | NonEmptyRequestVersion(size: nat)
    | ReadFailure

  datatype EncodeError =
    | OversizedPayload(length: nat)
    | JsonFailure
    | ExitWithBoth

  // --------------------------------------------------------------- lengths

  /** `u32::from_be_bytes`. */
  function FromBe(b: seq<byte>): (n: nat)
    requires |b| == 4
    ensures n < 0x1_0000_0000
  {
    ((b[0] as nat * 256 + b[1] as nat) * 256 + b[2] as nat) * 256 + b[3] as nat
  }

  /** `put_u32`: the four bytes of a 32-bit value, most significant first. */
  function ToBe(n: nat): (b: seq<byte>)
    requires n < 0x1_0000_0000
    ensures |b| == 4
  {
    [(n / 0x100_0000) as byte, (n / 0x1_0000 % 256) as byte, (n / 256 % 256) as byte, (n % 256) as byte]
  }

  lemma BigEndianInverse(n: nat)
    requires n < 0x1_0000_0000
    ensures FromBe(ToBe(n)) == n
    ensures n < 256 ==> ToBe(n) == [0, 0, 0, n as byte]
  {
    var hi := n / 256;
    assert n == hi * 256 + n % 256;
    assert n / 0x1_0000 == hi / 256 && hi == hi / 256 * 256 + hi % 256;
    assert n / 0x100_0000 == hi / 256 / 256;
  }

  /** Most significant byte first: the first byte in which two lengths differ decides which is greater. */
  lemma BigEndianOrder(a: seq<byte>, b: seq<byte>, k: nat)
    requires |a| == |b| == 4 && k < 4 && a[k] < b[k] && forall i :: 0 <= i < k ==> a[i] == b[i]
    ensures FromBe(a) < FromBe(b)
  {
    assert k == 0 || k == 1 || k == 2 || k == 3;
  }

  lemma BigEndianUnique(b: seq<byte>)
    requires |b| == 4
    ensures ToBe(FromBe(b)) == b
  {
    var n := FromBe(b);
    var hi := (b[0] as nat * 256 + b[1] as nat) * 256 + b[2] as nat;
    assert n == hi * 256 + b[3] as nat;
    assert n / 256 == hi && n % 256 == b[3] as nat;
    assert n / 0x1_0000 == hi / 256 == b[0] as nat * 256 + b[1] as nat;
    assert n / 0x100_0000 == hi / 256 / 256 == b[0] as nat;
  }

  // --------------------------------------------------- one frame, as values

  /** What one look at a byte buffer finds. */
  datatype Scan =
    | NeedMore
    | Got(frame: Frame, rest: seq<byte>)
    | Bad(error: DecodeError)

  /** The 5-byte header: the length is checked before the tag. */
  function Header(src: seq<byte>): Result<Option<(FrameType, nat)>, DecodeError> {
    if |src| < HEADER then Ok(None)
    else
      var length := FromBe(src[1..5]);
      if length > MAX_PAYLOAD then Err(PayloadTooLarge(length))
      else match FromU8(src[0])
        case None => Err(UnknownFrameType(src[0]))
        case Some(t) => Ok(Some((t, length)))
  }

  function ScanFrame(src: seq<byte>): Scan {
    match Header(src)
    case Err(e) => Bad(e)
    case Ok(None) => NeedMore
    case Ok(Some(h)) =>
      if |src| < HEADER + h.1 then NeedMore
      else Got(Frame(h.0, src[HEADER..HEADER + h.1]), src[HEADER + h.1..])
  }

  function EncodeFrame(f: Frame): (bytes: seq<byte>)
    requires |f.payload| <= MAX_PAYLOAD
    ensures |bytes| == HEADER + |f.payload|
  {
    [ToByte(f.frameType)] + ToBe(|f.payload|) + f.payload
  }

  /** `FrameCodec` over its `BytesMut`: decoding consumes from the front, encoding
      appends at the back. */
  class FrameBuffer {
    var bytes: seq<byte>

    constructor ()
      ensures bytes == []
    {
      bytes := [];
    }

    method Decode() returns (r: Result<Option<Frame>, DecodeError>)
      modifies this
      ensures match ScanFrame(old(bytes))
              case NeedMore => r == Ok(None) && bytes == old(bytes)
              case Bad(e) => r == Err(e) && bytes == old(bytes)
              case Got(f, rest) => r == Ok(Some(f)) && bytes == rest && |bytes| < |old(bytes)|
    {
      match Header(bytes) {
        case Err(e) =>
          return Err(e);
        case Ok(None) =>
          return Ok(None);
        case Ok(Some(h)) =>
          var length := h.1;
          if |bytes| < HEADER + length {
            return Ok(None);
          }
          ghost var src := bytes;
          bytes := bytes[HEADER..];
          var payload := bytes[..length];
          assert payload == src[HEADER..HEADER + length];
          bytes := bytes[length..];
          assert bytes == src[HEADER + length..];
          return Ok(Some(Frame(h.0, payload)));
      }
    }

    /** An oversized payload is refused before anything is appended. */
    method Encode(item: Frame) returns (r: Result<(), EncodeError>)
      modifies this
      ensures r.Ok? <==> |item.payload| <= MAX_PAYLOAD
      ensures r.Ok? ==> bytes == old(bytes) + EncodeFrame(item)
      ensures r.Err? ==> r.error == OversizedPayload(|item.payload|) && bytes == old(bytes)
    {
      if |item.payload| > MAX_PAYLOAD {
        return Err(OversizedPayload(|item.payload|));
      }
      bytes := bytes + [ToByte(item.frameType)];
      bytes := bytes + ToBe(|item.payload|);
      bytes := bytes + item.payload;
      return Ok(());
    }
  }

  // --------------------------------------------------------------- messages

  datatype Request = Request(command: string, args: seq<string>, cwd: string, env: seq<string>)

  datatype ExitMsg = ExitMsg(code: Option<byte>, signal: Option<byte>)

  datatype Message =
    | Run(request: Request)
    | Stdin(bytes: seq<byte>)
    | Stdout(bytes: seq<byte>)
    | Stderr(bytes: seq<byte>)
    | Exit(exit: ExitMsg)
    | Error(message: string)
    | ServerStopping
    | Version(version: string)
    | Signal(signal: byte)
    | RequestVersion
    | ServerVersion(version: string)
  {
    function Type(): FrameType {
      match this
      case Run(_) => RequestTag
      case Stdin(_) => StdinTag
      case Stdout(_) => StdoutTag
      case Stderr(_) => StderrTag
      case Exit(_) => ExitTag
      case Error(_) => ErrorTag
      case ServerStopping => ServerStoppingTag
      case Version(_) => VersionTag
      case Signal(_) => SignalTag
      case RequestVersion => RequestVersionTag
      case ServerVersion(_) => ServerVersionTag
    }

    predicate IsStruct() {
      !Stdin? && !Stdout? && !Stderr? && !ServerStopping? && !RequestVersion?
    }
  }

  predicate BothSet(e: ExitMsg) {
    e.code.Some? && e.signal.Some?
  }

  /** The JSON text layer, which this model does not open: struct messages to bytes and back. */
  datatype Json = Json(enc: Message -> Option<seq<byte>>, dec: (FrameType, seq<byte>) -> Option<Message>)

  /** What is assumed of the JSON layer: it reads back what it wrote, it only ever yields the
      shape it was asked for, and the one-field `Signal` object always fits in a frame. */
  ghost predicate Faithful(json: Json) {
    && (forall m: Message :: m.IsStruct() && json.enc(m).Some? ==> json.dec(m.Type(), json.enc(m).value) == Some(m))
    && (forall t: FrameType, p: seq<byte> :: json.dec(t, p).Some? ==> json.dec(t, p).value.Type() == t)
    && (forall n: byte :: json.enc(Signal(n)).Some? && |json.enc(Signal(n)).value| <= MAX_PAYLOAD)
  }

  function IntoFrame(json: Json, m: Message): Result<Frame, EncodeError> {
    if m.Exit? && BothSet(m.exit) then Err(ExitWithBoth)
    else match m
      case Stdin(b) => Ok(Frame(StdinTag, b))
      case Stdout(b) => Ok(Frame(StdoutTag, b))
      case Stderr(b) => Ok(Frame(StderrTag, b))
      case ServerStopping => Ok(Frame(ServerStoppingTag, []))
      case RequestVersion => Ok(Frame(RequestVersionTag, []))
      case _ => match json.enc(m)
        case Some(p) => Ok(Frame(m.Type(), p))
        case None => Err(JsonFailure)
  }

  function FromFrame(json: Json, f: Frame): Result<Message, DecodeError> {
    match f.frameType
    case StdinTag => Ok(Stdin(f.payload))
    case StdoutTag => Ok(Stdout(f.payload))
    case StderrTag => Ok(Stderr(f.payload))
    case ServerStoppingTag =>
      if f.payload != [] then Err(NonEmptyServerStopping(|f.payload|)) else Ok(ServerStopping)
    case RequestVersionTag =>
      if f.payload != [] then Err(NonEmptyRequestVersion(|f.payload|)) else Ok(RequestVersion)
    case _ => match json.dec(f.frameType, f.payload)
      case None => Err(BadJson)
      case Some(m) => if m.Exit? && BothSet(m.exit) then Err(InvalidExit) else Ok(m)
  }

  /** Which messages become a frame, and which: a stream message its bytes, an empty one no payload, a
      struct message its JSON text. Refused is exactly the `Exit` that sets both fields, and a struct message
      the JSON layer has no text for. */
  lemma FramesOf(json: Json, m: Message)
    ensures IntoFrame(json, m).Err? <==> (m.Exit? && m.exit.code.Some? && m.exit.signal.Some?) || (m.IsStruct() && json.enc(m).None?)
    ensures IntoFrame(json, m).Ok? ==>
              var f := IntoFrame(json, m).value;
              && f.frameType == m.Type()
              && (m.IsStruct() ==> json.enc(m) == Some(f.payload))
              && (m.Stdin? || m.Stdout? || m.Stderr? ==> f.payload == m.bytes)
              && (m.ServerStopping? || m.RequestVersion? ==> f.payload == [])
    ensures m.IsStruct() <==> m.Run? || m.Exit? || m.Error? || m.Version? || m.Signal? || m.ServerVersion?
  {
  }

  /** The layout of an encoded message: its tag, the length of its payload, the payload. */
  lemma WireTags(json: Json, m: Message)
    requires IntoFrame(json, m).Ok? && |IntoFrame(json, m).value.payload| <= MAX_PAYLOAD
    ensures EncodeFrame(IntoFrame(json, m).value)[0] ==
              if m.Run? then 0x01 else if m.Stdin? then 0x02 else if m.Stdout? then 0x03 else if m.Stderr? then 0x04
              else if m.Exit? then 0x05 else if m.Error? then 0x06 else if m.ServerStopping? then 0x07
              else if m.Version? then 0x08 else if m.Signal? then 0x09 else if m.RequestVersion? then 0x0A else 0x0B
    ensures var f := IntoFrame(json, m).value;
            FromBe(EncodeFrame(f)[1..5]) == |f.payload| && EncodeFrame(f)[5..] == f.payload
  {
    BigEndianInverse(|IntoFrame(json, m).value.payload|);
    match m {
      case Run(_) => case Stdin(_) => case Stdout(_) => case Stderr(_) => case Exit(_) => case Error(_) =>
      case ServerStopping => case Version(_) => case Signal(_) => case RequestVersion => case ServerVersion(_) =>
    }
  }

  /** Round trip of the typed layer: whatever was put in a frame comes back out of it, and the
      one message that is refused on the way out whatever its text is the `Exit` that sets both fields. */
  lemma MessageRoundTrip(json: Json, m: Message)
    requires Faithful(json)
    ensures IntoFrame(json, m).Ok? <==> !(m.Exit? && BothSet(m.exit)) && (m.IsStruct() ==> json.enc(m).Some?)
    ensures IntoFrame(json, m).Ok? ==>
              && IntoFrame(json, m).value.frameType == m.Type()
              && FromFrame(json, IntoFrame(json, m).value) == Ok(m)
    ensures !m.IsStruct() || m.Signal? ==> IntoFrame(json, m).Ok?
    ensures IntoFrame(json, m) == Err(ExitWithBoth) <==> m.Exit? && BothSet(m.exit)
  {
    if m.IsStruct() {
      assert json.enc(m).Some? ==> json.dec(m.Type(), json.enc(m).value) == Some(m);
      if m.Signal? {
        assert json.enc(Signal(m.signal)).Some?;
      }
    }
  }

  /** Which frames become a message, and the error of every other: a struct payload the JSON layer does not
      read, an `Exit` that sets both fields, a payload where there must be none. */
  lemma FrameErrors(json: Json, f: Frame)
    ensures var r, t, p := FromFrame(json, f), f.frameType, f.payload;
            && (t == StdinTag ==> r == Ok(Stdin(p)))
            && (t == StdoutTag ==> r == Ok(Stdout(p)))
            && (t == StderrTag ==> r == Ok(Stderr(p)))
            && (t == ServerStoppingTag ==> r == if p == [] then Ok(ServerStopping) else Err(NonEmptyServerStopping(|p|)))
            && (t == RequestVersionTag ==> r == if p == [] then Ok(RequestVersion) else Err(NonEmptyRequestVersion(|p|)))
            && (StructTag(t) && json.dec(t, p).None? ==> r == Err(BadJson))
            && (StructTag(t) && json.dec(t, p).Some? ==>
                  var m := json.dec(t, p).value;
                  r == if m.Exit? && m.exit.code.Some? && m.exit.signal.Some? then Err(InvalidExit) else Ok(m))
  {
  }

  predicate StructTag(t: FrameType) {
    t == RequestTag || t == ExitTag || t == ErrorTag || t == VersionTag || t == SignalTag || t == ServerVersionTag
  }

  /** Nothing decodes to a message of another type, to an `Exit` that sets both fields, or, for the
      two empty frames, from a payload that is not empty. */
  lemma FromFrameSound(json: Json, f: Frame)
    requires Faithful(json)
    requires FromFrame(json, f).Ok?
    ensures var m := FromFrame(json, f).value;
            && m.Type() == f.frameType
            && !(m.Exit? && BothSet(m.exit))
            && (m.ServerStopping? || m.RequestVersion? ==> f.payload == [])
            && (m.Stdin? || m.Stdout? || m.Stderr? ==> m.bytes == f.payload)
  {
    assert json.dec(f.frameType, f.payload).Some? ==> json.dec(f.frameType, f.payload).value.Type() == f.frameType;
  }
}
