/** The client's `session`: one request out, then a loop over received frames, host stdin and the
    two relayed signals, until something decides the outcome. As on the server, an input is what a
    pending await resolves to. */
module ClientSession {
  import opened Wrappers
  import opened Protocol

  /** What ended the session. */
  datatype Cause =
    | ByExit(exit: ExitMsg)
    | ByError(message: string)
    | ByStopping
    | ByEof
    | ByReceive(error: DecodeError)
    | BySend
    | ByWrite
    | ByHandler

  datatype Input =
    | Sent(ok: bool)                                                // the pending `send` returned
    | Installed(ok: bool)                                           // both signal handlers are in place, or not
    | FrameIn(r: Result<Message, DecodeError>, cut: Option<nat>)    // a frame; `cut`: its terminal write fails there
    | FrameEnd                                                      // `framed.next()` gave `None`
    | Chunk(bytes: seq<byte>)                                       // stdin channel: data
    | StdinEnd                                                      // stdin channel: end, or closed
    | Raised(signal: byte)                                          // a relayed signal arrived
    | SignalClosed(signal: byte)                                    // that signal's stream ended

  datatype Stream = Out | Err

  datatype Effect =
    | Quiet
    | Transmit(m: Message)
    | Write(stream: Stream, bytes: seq<byte>)

  datatype Phase =
    | Opening            // the request is being sent
    | Installing
    | Looping
    | Sending(fatal: bool)
    | Finished(cause: Cause)

  datatype Client = Client(phase: Phase, stdinOpen: bool, sigintOpen: bool, sigtermOpen: bool)

  const START := Client(Opening, true, true, true)

  datatype Reaction = Reaction(client: Client, effect: Effect)

  function Stay(c: Client): Reaction {
    Reaction(c, Quiet)
  }

  function Finish(c: Client, cause: Cause): Reaction {
    Reaction(c.(phase := Finished(cause)), Quiet)
  }

  /** `write_stream`: all of `bytes` and carry on, or only the first few and fail. */
  function Put(c: Client, s: Stream, bytes: seq<byte>, cut: Option<nat>): Reaction {
    match cut
    case None => Reaction(c, Write(s, bytes))
    case Some(k) => Reaction(c.(phase := Finished(ByWrite)), Write(s, if k < |bytes| then bytes[..k] else bytes))
  }

  function ReactFrame(c: Client, r: Result<Message, DecodeError>, cut: Option<nat>): Reaction {
    match r
    case Err(e) => Finish(c, ByReceive(e))
    case Ok(Stdout(bytes)) => Put(c, Out, bytes, cut)
    case Ok(Stderr(bytes)) => Put(c, Stream.Err, bytes, cut)
    case Ok(Exit(exit)) => Finish(c, ByExit(exit))
    case Ok(Error(message)) => Finish(c, ByError(message))
    case Ok(ServerStopping) => Finish(c, ByStopping)
    case Ok(_) => Stay(c)
  }

  predicate Listens(c: Client, signal: byte) {
    || (signal == SIGINT && c.sigintOpen)
    || (signal == SIGTERM && c.sigtermOpen)
  }

  function ReactLoop(c: Client, i: Input): Reaction {
    match i
    case FrameIn(r, cut) => ReactFrame(c, r, cut)
    case FrameEnd => Finish(c, ByEof)
    case Chunk(bytes) => if c.stdinOpen then Reaction(c.(phase := Sending(true)), Transmit(Stdin(bytes))) else Stay(c)
    case StdinEnd =>
      if c.stdinOpen then Reaction(c.(phase := Sending(false), stdinOpen := false), Transmit(Stdin([]))) else Stay(c)
    case Raised(n) => if Listens(c, n) then Reaction(c.(phase := Sending(true)), Transmit(Signal(n))) else Stay(c)
    case SignalClosed(n) =>
      if n == SIGINT then Reaction(c.(sigintOpen := false), Quiet)
      else if n == SIGTERM then Reaction(c.(sigtermOpen := false), Quiet)
      else Stay(c)
    case _ => Stay(c)
  }

  function React(c: Client, i: Input): Reaction {
    match c.phase
    case Opening => (
      match i
      case Sent(ok) => if ok then Reaction(c.(phase := Installing), Quiet) else Finish(c, BySend)
      case _ => Stay(c))
    case Installing => (
      match i
      case Installed(ok) => if ok then Reaction(c.(phase := Looping), Quiet) else Finish(c, ByHandler)
      case _ => Stay(c))
    case Looping => ReactLoop(c, i)
    case Sending(fatal) => (
      match i
      case Sent(ok) => if fatal && !ok then Finish(c, BySend) else Reaction(c.(phase := Looping), Quiet)
      case _ => Stay(c))
    case Finished(_) => Stay(c)
  }

  // ----------------------------------------------------------- exit codes

  /** 128 + SIGTERM. */
  const SHUTDOWN_EXIT: int := 128 + SIGTERM as int

  datatype Outcome = Outcome(code: int, notice: Option<string>)

  function Just(code: int): Outcome {
    Outcome(code, None)
  }

  function ExitOutcome(exit: ExitMsg, command: string): Option<Outcome> {
    match exit.code
    case Some(code) =>
      if code == 127 then Some(Outcome(127, Some(command + ": command not found")))
      else if code == 126 then Some(Outcome(126, Some(command + ": permission denied")))
      else Some(Just(code as int))
    case None => match exit.signal
      case Some(signal) => Some(Just(signal as int + 128))
      case None => None
  }

  /** The exit code the process reports; every local or transport failure is 1. */
  function Reported(cause: Cause, command: string): int {
    match cause
    case ByExit(exit) => (match ExitOutcome(exit, command) case Some(o) => o.code case None => 1)
    case ByStopping => SHUTDOWN_EXIT
    case ByEof => SHUTDOWN_EXIT
    case _ => 1
  }

  // ------------------------------------------------------------------ runs

  datatype Session = Session(client: Client, out: seq<byte>, err: seq<byte>, sent: seq<Message>)

  const BEGUN := Session(START, [], [], [])

  function Perform(s: Session, r: Reaction): Session {
    match r.effect
    case Quiet => s.(client := r.client)
    case Transmit(m) => s.(client := r.client, sent := s.sent + [m])
    case Write(Out, bytes) => s.(client := r.client, out := s.out + bytes)
    case Write(Err, bytes) => s.(client := r.client, err := s.err + bytes)
  }

  function Step(s: Session, i: Input): Session {
    Perform(s, React(s.client, i))
  }

  function Play(s: Session, inputs: seq<Input>): Session
    decreases |inputs|
  {
    if inputs == [] then s else Play(Step(s, inputs[0]), inputs[1..])
  }

  /** The task as a mutable object: the locals of `session` and what it has written. */
  class SessionTask {
    var phase: Phase
    var stdinOpen: bool
    var sigintOpen: bool
    var sigtermOpen: bool
    var out: seq<byte>
    var err: seq<byte>
    var sent: seq<Message>

    ghost function View(): Session
      reads this
    {
      Session(Client(phase, stdinOpen, sigintOpen, sigtermOpen), out, err, sent)
    }

    constructor ()
      ensures View() == BEGUN
    {
      phase, stdinOpen, sigintOpen, sigtermOpen := Opening, true, true, true;
      out, err, sent := [], [], [];
    }

    method OnFrame(r: Result<Message, DecodeError>, cut: Option<nat>)
      requires phase == Looping
      modifies this
      ensures View() == Step(old(View()), FrameIn(r, cut))
    {
      match r {
        case Err(e) => phase := Finished(ByReceive(e));
        case Ok(m) =>
          match m {
            case Stdout(bytes) =>
              var n := if cut.Some? && cut.value < |bytes| then cut.value else |bytes|;
              assert bytes[..|bytes|] == bytes;
              out := out + bytes[..n];
              if cut.Some? { phase := Finished(ByWrite); }
            case Stderr(bytes) =>
              var n := if cut.Some? && cut.value < |bytes| then cut.value else |bytes|;
              assert bytes[..|bytes|] == bytes;
              err := err + bytes[..n];
              if cut.Some? { phase := Finished(ByWrite); }
            case Exit(exit) => phase := Finished(ByExit(exit));
            case Error(message) => phase := Finished(ByError(message));
            case ServerStopping => phase := Finished(ByStopping);
            case _ =>
          }
      }
    }

    method OnSelect(i: Input)
      requires phase == Looping && !i.FrameIn?
      modifies this
      ensures View() == Step(old(View()), i)
    {
      match i {
        case FrameEnd => phase := Finished(ByEof);
        case Chunk(bytes) =>
          if stdinOpen {
            sent, phase := sent + [Stdin(bytes)], Sending(true);
          }
        case StdinEnd =>
          if stdinOpen {
            sent, phase := sent + [Stdin([])], Sending(false);
            stdinOpen := false;
          }
        case Raised(n) =>
          if (n == SIGINT && sigintOpen) || (n == SIGTERM && sigtermOpen) {
            sent, phase := sent + [Signal(n)], Sending(true);
          }
        case SignalClosed(n) =>
          if n == SIGINT { sigintOpen := false; } else if n == SIGTERM { sigtermOpen := false; }
        case _ =>
      }
    }

    method OnInput(i: Input)
      modifies this
      ensures View() == Step(old(View()), i)
    {
      match phase {
        case Opening =>
          if i.Sent? { phase := if i.ok then Installing else Finished(BySend); }
        case Installing =>
          if i.Installed? { phase := if i.ok then Looping else Finished(ByHandler); }
        case Looping =>
          if i.FrameIn? { OnFrame(i.r, i.cut); } else { OnSelect(i); }
        case Sending(fatal) =>
          if i.Sent? { phase := if fatal && !i.ok then Finished(BySend) else Looping; }
        case Finished(_) =>
      }
    }

    method Drive(inputs: seq<Input>)
      modifies this
      ensures View() == Play(old(View()), inputs)
    {
      ghost var whole := Play(View(), inputs);
      var k := 0;
      while k < |inputs|
        invariant 0 <= k <= |inputs|
        invariant Play(View(), inputs[k..]) == whole
      {
        assert inputs[k..][0] == inputs[k] && inputs[k..][1..] == inputs[k + 1..];
        OnInput(inputs[k]);
        k := k + 1;
      }
    }
  }

  // -------------------------------------------- decided by the first verdict

  datatype Arrival = Arrived(r: Result<Message, DecodeError>) | Ended

  /** What an arrival decides on its own, if anything. */
  function Verdict(a: Arrival): Option<Cause> {
    match a
    case Ended => Some(ByEof)
    case Arrived(Err(e)) => Some(ByReceive(e))
    case Arrived(Ok(Exit(exit))) => Some(ByExit(exit))
    case Arrived(Ok(Error(message))) => Some(ByError(message))
    case Arrived(Ok(ServerStopping)) => Some(ByStopping)
    case _ => None
  }

  predicate Output(a: Arrival) {
    a.Arrived? && a.r.Ok? && (a.r.value.Stdout? || a.r.value.Stderr?)
  }

  function Bytes(a: Arrival, s: Stream): seq<byte> {
    match a
    case Arrived(Ok(Stdout(b))) => if s.Out? then b else []
    case Arrived(Ok(Stderr(b))) => if s.Err? then b else []
    case _ => []
  }

  datatype Decision = Decision(cause: Option<Cause>, out: seq<byte>, err: seq<byte>)

  /** The reference: the stream up to the first verdict is the output, the verdict is the outcome. */
  function Decide(arrivals: seq<Arrival>): Decision
    decreases |arrivals|
  {
    if arrivals == [] then Decision(None, [], [])
    else if Verdict(arrivals[0]).Some? then Decision(Verdict(arrivals[0]), [], [])
    else
      var later := Decide(arrivals[1..]);
      Decision(later.cause, Bytes(arrivals[0], Out) + later.out, Bytes(arrivals[0], Stream.Err) + later.err)
  }

  function Arrivals(inputs: seq<Input>): seq<Arrival> {
    if inputs == [] then []
    else
      var rest := Arrivals(inputs[1..]);
      match inputs[0]
      case FrameIn(r, _) => [Arrived(r)] + rest
      case FrameEnd => [Ended] + rest
      case _ => rest
  }

  /** Frames are only taken while the loop polls for them (or are offered when it is over). */
  ghost predicate Polled(s: Session, inputs: seq<Input>)
    decreases |inputs|
  {
    inputs != [] ==>
      && (inputs[0].FrameIn? || inputs[0].FrameEnd? ==> s.client.phase.Looping? || s.client.phase.Finished?)
      && Polled(Step(s, inputs[0]), inputs[1..])
  }

  predicate Local(c: Cause) {
    c.BySend? || c.ByWrite? || c.ByHandler?
  }

  predicate EndedLocally(s: Session) {
    s.client.phase.Finished? && Local(s.client.phase.cause)
  }

  /** From `s`, the arrivals lead to `u` and to what they decide; a finished session ignores them. */
  ghost predicate LeadsTo(s: Session, arrivals: seq<Arrival>, u: Session) {
    var d := Decide(arrivals);
    if s.client.phase.Finished? then u == s
    else
      && u.out == s.out + d.out
      && u.err == s.err + d.err
      && (u.client.phase.Finished? <==> d.cause.Some?)
      && (d.cause.Some? ==> u.client.phase == Finished(d.cause.value))
  }

  /** A failure on the client's own side, as the answer to what the session is waiting for: the request
      is not sent, a handler is not installed, a message other than the end of stdin is not sent, or the
      terminal does not take its output. */
  predicate Fails(s: Session, i: Input) {
    match s.client.phase
    case Opening => i == Sent(false)
    case Installing => i == Installed(false)
    case Sending(_) => i == Sent(false) && !(s.sent != [] && s.sent[|s.sent| - 1] == Stdin([]))
    case Looping => i.FrameIn? && i.r.Ok? && (i.r.value.Stdout? || i.r.value.Stderr?) && i.cut.Some?
    case Finished(_) => false
  }

  predicate FailsLocally(s: Session, inputs: seq<Input>)
    decreases |inputs|
  {
    inputs != [] && (Fails(s, inputs[0]) || FailsLocally(Step(s, inputs[0]), inputs[1..]))
  }

  /** The stdin channel carries no empty chunk. */
  predicate FromPump(i: Input) {
    i.Chunk? ==> i.bytes != []
  }

  /** While a message is being sent, it is the last in the list, and its failure is fatal unless it is the
      end of stdin. */
  ghost predicate Sends(s: Session) {
    && (s.client.phase.Sending? ==>
          s.sent != [] && (s.client.phase.fatal <==> s.sent[|s.sent| - 1] != Stdin([])))
    && (s.client.phase.Opening? ==> Stdin([]) !in s.sent)
    && (s.client.phase == Finished(BySend) ==> s.sent == [] || s.sent[|s.sent| - 1] != Stdin([]))
  }

  lemma SendsStep(s: Session, i: Input)
    requires Sends(s) && FromPump(i)
    ensures Sends(Step(s, i))
  {
  }

  lemma FailsStep(s: Session, i: Input)
    requires Sends(s) && !EndedLocally(s)
    ensures EndedLocally(Step(s, i)) <==> Fails(s, i)
  {
  }

  lemma {:induction false} LocalEnds(s: Session, inputs: seq<Input>)
    requires Sends(s) && (forall i <- inputs :: FromPump(i))
    ensures Sends(Play(s, inputs))
    ensures EndedLocally(Play(s, inputs)) <==> EndedLocally(s) || FailsLocally(s, inputs)
    decreases |inputs|
  {
    if inputs != [] {
      if EndedLocally(s) {
        OverStaysOver(s, inputs);
      } else {
        SendsStep(s, inputs[0]);
        FailsStep(s, inputs[0]);
        LocalEnds(Step(s, inputs[0]), inputs[1..]);
      }
    }
  }

  /** The session that is sending its request. */
  function Requesting(q: Request): Session {
    BEGUN.(sent := [Run(q)])
  }

  /** A session ends by a failure of its own exactly if one of those occurs; a send whose failure ended it
      was never that of the end of stdin. */
  lemma EndsLocallyIff(q: Request, inputs: seq<Input>)
    requires forall i <- inputs :: FromPump(i)
    ensures var t := Play(Requesting(q), inputs);
            && (EndedLocally(t) <==> FailsLocally(Requesting(q), inputs))
            && (t.client.phase == Finished(BySend) ==> t.sent != [] && t.sent[|t.sent| - 1] != Stdin([]))
  {
    LocalEnds(Requesting(q), inputs);
    SentGrows(Requesting(q), inputs);
  }

  lemma {:induction false} BySendNeedsOne(s: Session, inputs: seq<Input>) returns (i: Input)
    requires s.client.phase != Finished(BySend) && Play(s, inputs).client.phase == Finished(BySend)
    ensures i == Sent(false) && i in inputs
    decreases |inputs|
  {
    assert inputs != [];
    if Step(s, inputs[0]).client.phase == Finished(BySend) {
      OnlySent(s, inputs[0]);
      i := inputs[0];
    } else {
      i := BySendNeedsOne(Step(s, inputs[0]), inputs[1..]);
    }
  }

  lemma OnlySent(s: Session, i: Input)
    requires s.client.phase != Finished(BySend) && Step(s, i).client.phase == Finished(BySend)
    ensures i == Sent(false)
  {
  }

  lemma {:induction false} SentGrows(s: Session, inputs: seq<Input>)
    ensures s.sent <= Play(s, inputs).sent
    decreases |inputs|
  {
    if inputs != [] {
      SentGrows(Step(s, inputs[0]), inputs[1..]);
    }
  }

  /** Outcome and output of a session without a failure of its own are those of the first decisive
      arrival, however stdin and signals were interleaved, whether or not the end of stdin could be sent,
      and whatever arrived later. */
  lemma FirstVerdictDecides(q: Request, inputs: seq<Input>)
    requires forall i <- inputs :: FromPump(i)
    requires Polled(Requesting(q), inputs) && !FailsLocally(Requesting(q), inputs)
    ensures LeadsTo(Requesting(q), Arrivals(inputs), Play(Requesting(q), inputs))
  {
    LocalEnds(Requesting(q), inputs);
    Decides(Requesting(q), inputs);
  }

  lemma {:induction false} Decides(s: Session, inputs: seq<Input>)
    requires Polled(s, inputs)
    requires !EndedLocally(Play(s, inputs))
    ensures LeadsTo(s, Arrivals(inputs), Play(s, inputs))
    decreases |inputs|
  {
    if inputs == [] {
      Regroup(s.out, [], []);
      Regroup(s.err, [], []);
    } else {
      var i, rest := inputs[0], inputs[1..];
      if Step(s, i).client.phase.Finished? {
        OverStaysOver(Step(s, i), rest);
      }
      Decides(Step(s, i), rest);
      if i.FrameIn? || i.FrameEnd? {
        FrameThen(s, i, Arrivals(rest), Play(s, inputs));
      } else {
        OtherThen(s, i, Arrivals(rest), Play(s, inputs));
      }
    }
  }

  lemma FrameThen(s: Session, i: Input, later: seq<Arrival>, u: Session)
    requires i.FrameIn? || i.FrameEnd?
    requires s.client.phase.Looping? || s.client.phase.Finished?
    requires LeadsTo(Step(s, i), later, u) && !EndedLocally(Step(s, i))
    ensures LeadsTo(s, [if i.FrameIn? then Arrived(i.r) else Ended] + later, u)
  {
    TakenFrame(s, i);
    var a := if i.FrameIn? then Arrived(i.r) else Ended;
    assert ([a] + later)[1..] == later;
    Regroup(s.out, Bytes(a, Out), Decide(later).out);
    Regroup(s.err, Bytes(a, Stream.Err), Decide(later).err);
  }

  lemma OtherThen(s: Session, i: Input, later: seq<Arrival>, u: Session)
    requires !i.FrameIn? && !i.FrameEnd?
    requires LeadsTo(Step(s, i), later, u) && !EndedLocally(Step(s, i))
    ensures LeadsTo(s, later, u)
  {
  }

  lemma Regroup(a: seq<byte>, b: seq<byte>, c: seq<byte>)
    ensures (a + b) + c == a + (b + c)
    ensures a + [] == a
  {
  }

  lemma {:induction false} OverStaysOver(s: Session, inputs: seq<Input>)
    requires s.client.phase.Finished?
    ensures Play(s, inputs) == s
    decreases |inputs|
  {
    if inputs != [] {
      OverStaysOver(s, inputs[1..]);
    }
  }

  lemma TakenFrame(s: Session, i: Input)
    requires i.FrameIn? || i.FrameEnd?
    requires s.client.phase.Looping? || s.client.phase.Finished?
    requires !EndedLocally(Step(s, i))
    ensures var a := if i.FrameIn? then Arrived(i.r) else Ended;
            var t := Step(s, i);
            if s.client.phase.Finished? then t == s
            else
              && (Verdict(a).Some? ==> t == s.(client := s.client.(phase := Finished(Verdict(a).value))))
              && (Verdict(a).None? ==> t == s.(out := s.out + Bytes(a, Out), err := s.err + Bytes(a, Stream.Err)))
  {
    Regroup(s.out, [], []);
    Regroup(s.err, [], []);
  }

  /** Nothing after the decisive arrival matters. */
  lemma {:induction false} NothingAfterVerdict(before: seq<Arrival>, a: Arrival, after: seq<Arrival>)
    requires Verdict(a).Some?
    ensures Decide(before + [a] + after) == Decide(before + [a])
    decreases |before|
  {
    if before == [] {
      assert before + [a] == [a] && [a] + after == before + [a] + after;
    } else {
      NothingAfterVerdict(before[1..], a, after);
      assert (before + [a] + after)[1..] == before[1..] + [a] + after;
      assert (before + [a])[1..] == before[1..] + [a];
    }
  }

  /** A frame that is neither output nor decisive (a misdirected or a version frame) can be inserted
      anywhere without changing outcome or output. */
  lemma {:induction false} NeutralFrames(before: seq<Arrival>, n: Arrival, after: seq<Arrival>)
    requires Verdict(n).None? && !Output(n)
    ensures Decide(before + [n] + after) == Decide(before + after)
    decreases |before|
  {
    if before == [] {
      assert (before + [n] + after)[1..] == after && before + after == after;
    } else {
      NeutralFrames(before[1..], n, after);
      assert (before + [n] + after)[1..] == before[1..] + [n] + after;
      assert (before + after)[1..] == before[1..] + after;
    }
  }

  /** The neutral frames are exactly these six kinds. */
  lemma NeutralKinds(m: Message)
    ensures Verdict(Arrived(Ok(m))).None? && !Output(Arrived(Ok(m))) <==>
              m.Version? || m.ServerVersion? || m.Run? || m.RequestVersion? || m.Stdin? || m.Signal?
  {
  }

  // ------------------------------------------------------- what is sent on

  /** Which sources of messages are used up. */
  datatype Used = Used(stdin: bool, sigint: bool, sigterm: bool)

  const NONE_USED := Used(false, false, false)

  function Use(u: Used, p: Phase, i: Input): Used {
    if !p.Looping? then u
    else if i.StdinEnd? then u.(stdin := true)
    else if i == SignalClosed(SIGINT) then u.(sigint := true)
    else if i == SignalClosed(SIGTERM) then u.(sigterm := true)
    else u
  }

  /** The message an event calls for: a chunk, the end of stdin, a relayed signal. */
  function Calls(u: Used, p: Phase, i: Input): seq<Message> {
    if !p.Looping? then []
    else if i.Chunk? && !u.stdin then [Stdin(i.bytes)]
    else if i.StdinEnd? && !u.stdin then [Stdin([])]
    else if i == Raised(SIGINT) && !u.sigint then [Signal(SIGINT)]
    else if i == Raised(SIGTERM) && !u.sigterm then [Signal(SIGTERM)]
    else []
  }

  function CallsOf(u: Used, s: Session, inputs: seq<Input>): seq<Message>
    decreases |inputs|
  {
    if inputs == [] then []
    else
      var p, i := s.client.phase, inputs[0];
      Calls(u, p, i) + CallsOf(Use(u, p, i), Step(s, i), inputs[1..])
  }

  predicate UsedUp(c: Client, u: Used) {
    c.stdinOpen == !u.stdin && c.sigintOpen == !u.sigint && c.sigtermOpen == !u.sigterm
  }

  lemma CallsStep(s: Session, u: Used, i: Input)
    requires UsedUp(s.client, u)
    ensures var p := s.client.phase;
            UsedUp(Step(s, i).client, Use(u, p, i)) && Step(s, i).sent == s.sent + Calls(u, p, i)
  {
  }

  lemma {:induction false} CallsAlways(s: Session, u: Used, inputs: seq<Input>)
    requires UsedUp(s.client, u)
    ensures Play(s, inputs).sent == s.sent + CallsOf(u, s, inputs)
    decreases |inputs|
  {
    if inputs != [] {
      CallsStep(s, u, inputs[0]);
      CallsAlways(Step(s, inputs[0]), Use(u, s.client.phase, inputs[0]), inputs[1..]);
    }
  }

  /** A session sends its request and then exactly what came in while it looped, in order: host stdin up to
      its end, which it marks once, and every SIGINT and SIGTERM. */
  lemma SendsWhatComes(q: Request, inputs: seq<Input>)
    ensures Play(Requesting(q), inputs).sent == [Run(q)] + CallsOf(NONE_USED, Requesting(q), inputs)
  {
    CallsAlways(Requesting(q), NONE_USED, inputs);
  }

  function Toward(p: Phase): Input {
    match p
    case Opening => Sent(true)
    case Installing => Installed(true)
    case Sending(_) => Sent(true)
    case _ => FrameEnd
  }

  function Distance(p: Phase): nat {
    match p
    case Opening => 3
    case Installing => 2
    case Sending(_) => 2
    case Looping => 1
    case Finished(_) => 0
  }

  lemma Nearer(s: Session)
    requires !s.client.phase.Finished?
    ensures Distance(Step(s, Toward(s.client.phase)).client.phase) < Distance(s.client.phase)
    ensures !Fails(s, Toward(s.client.phase))
  {
  }

  /** A session is never stuck: without any failure of its own it can always be brought to its end. */
  lemma {:induction false} NeverStuck(s: Session) returns (rest: seq<Input>)
    ensures Play(s, rest).client.phase.Finished? && !FailsLocally(s, rest)
    decreases Distance(s.client.phase)
  {
    if s.client.phase.Finished? {
      rest := [];
    } else {
      Nearer(s);
      var i := Toward(s.client.phase);
      var later := NeverStuck(Step(s, i));
      rest := [i] + later;
      assert rest[1..] == later;
    }
  }

  // --------------------------------------------------------------- outcomes

  /** An `Exit` with neither field set is no outcome; every other is its code, or 128 plus its signal; only
      127 and 126 come with a notice, each with its own. */
  lemma ExitOutcomes(exit: ExitMsg, command: string)
    ensures var o := ExitOutcome(exit, command);
            && (o.None? <==> exit.code.None? && exit.signal.None?)
            && (exit.code.Some? ==> o.value.code == exit.code.value as int)
            && (exit.code.None? && exit.signal.Some? ==> o.value.code == 128 + exit.signal.value as int)
            && (o.Some? ==>
                  && (exit.code == Some(127) <==> o.value.notice == Some(command + ": command not found"))
                  && (exit.code == Some(126) <==> o.value.notice == Some(command + ": permission denied"))
                  && (exit.code != Some(127) && exit.code != Some(126) <==> o.value.notice == None))
  {
    assert (command + ": command not found")[|command| + 2] == 'c';
    assert (command + ": permission denied")[|command| + 2] == 'p';
  }

  /** The exit code of every other end: 143 on a notice or the end of the stream, 1 on every failure. */
  lemma OtherOutcomes(cause: Cause, command: string)
    requires !cause.ByExit?
    ensures Reported(cause, command) == if cause.ByStopping? || cause.ByEof? then 143 else 1
    ensures Reported(ByExit(ExitMsg(None, None)), command) == 1
  {
  }
}
