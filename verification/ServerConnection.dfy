/** `handle_conn` and `bridge` as one reactive task. Every await is a phase; an input is what a
    pending await resolves to, and a reaction is the code up to the next await. A reaction has at
    most one visible effect, so the effects of a run form a trace in program order. */
module ServerConnection {
  import opened Wrappers
  import opened Protocol
  import Decimal

  datatype ExitStatus = Exited(code: int) | Signaled(signal: int) | Unknowable

  datatype SpawnResult = Spawned | NotFound | PermissionDenied | SpawnFailed(source: string)

  datatype Rejection =
    | ExpectedRequest(got: FrameType)
    | Undecodable(error: DecodeError)
    | NotADirectory(cwd: string)
    | BadEnvEntry(entry: string)
    | CannotSpawn(command: string, source: string)
    | CannotWait(command: string, source: string)

  datatype Input =
    | FrameIn(r: Result<Message, DecodeError>)      // `framed.next()` gave a frame or an error
    | FrameEnd                                      // `framed.next()` gave `None`
    | Stopping                                      // the stop flag is up
    | Launch(isDir: bool, spawn: SpawnResult)       // what the file system and `spawn` answer
    | Output(m: Message)                            // `rx.recv()` gave a message
    | OutputClosed                                  // `rx.recv()` gave `None`
    | SendDone(ok: bool)                            // the pending `send` returned
    | WriteDone(ok: bool)                           // the pending `write_all` to the child returned
    | WaitDone(status: Result<ExitStatus, string>)       // `child.wait()` completed
    | Proceed                                       // straight-line code between two effects

  datatype Why = Relayed | Shutdown | Disconnect

  datatype Effect =
    | Quiet
    | Accepted(request: Request)
    | ChildStarted
    | Emit(m: Message)                 // a frame handed to `send`
    | Feed(bytes: seq<byte>)           // `write_all` to the child's stdin begins
    | DropStdin                        // the child's stdin pipe is dropped
    | Kill(signal: byte, why: Why)     // `kill(-pgid, signal)`
    | BridgeOver(ok: bool)             // `bridge` returned
    | Reap                             // `child.wait()` completed

  datatype Phase =
    | AwaitFirst
    | Launching(request: Request)
    | Replying
    | Bridging
    | Relaying
    | Feeding
    | Notifying
    | Rejecting
    | Abandoning
    | Reaping
    | AwaitingChild
    | NotifyingLate
    | AwaitingChildLate
    | Reporting(report: Message)
    | Closing
    | Done

  datatype Conn = Conn(
    phase: Phase,
    command: string,
    stdinOpen: bool,
    clientWritesOpen: bool,
    stoppingOpen: bool)

  const START := Conn(AwaitFirst, "", false, false, false)

  // ------------------------------------------------------------ messages

  function TypeName(t: FrameType): string {
    match t
    case RequestTag => "Request"
    case StdinTag => "Stdin"
    case StdoutTag => "Stdout"
    case StderrTag => "Stderr"
    case ExitTag => "Exit"
    case ErrorTag => "Error"
    case ServerStoppingTag => "ServerStopping"
    case VersionTag => "Version"
    case SignalTag => "Signal"
    case RequestVersionTag => "RequestVersion"
    case ServerVersionTag => "ServerVersion"
  }

  function Hex(b: byte): string {
    var digits := "0123456789abcdef";
    if b < 16 then "0x" + [digits[b]] else "0x" + [digits[b / 16], digits[b % 16]]
  }

  function DecodeText(e: DecodeError): string {
    match e
    case UnknownFrameType(tag) => "unknown frame tag: `" + Hex(tag) + "`"
    case PayloadTooLarge(n) => "frame declares a " + Decimal.Of(n) + "-byte payload above the 16 MiB cap"
    case BadJson => "frame payload parse error"
    case NonEmptyServerStopping(n) => "non-empty `ServerStopping` payload: " + Decimal.Of(n) + " bytes"
    case InvalidExit => "both `code` and `signal` set in `Exit` frame"
    case NonEmptyRequestVersion(n) => "non-empty `RequestVersion` payload: " + Decimal.Of(n) + " bytes"
    case ReadFailure => "cannot read the socket"
  }

  function Text(r: Rejection): string {
    match r
    case ExpectedRequest(t) => "expected a `Request` or `RequestVersion` frame first, got `" + TypeName(t) + "`"
    case Undecodable(e) => DecodeText(e)
    case NotADirectory(cwd) => "`cwd` is not a directory: `" + cwd + "`"
    case BadEnvEntry(entry) => "invalid env entry `" + entry + "`"
    case CannotSpawn(command, source) => "cannot spawn `" + command + "`: " + source
    case CannotWait(command, source) => "cannot wait for `" + command + "`: " + source
  }

  function ErrorFor(r: Rejection): Message {
    Error(Text(r))
  }

  function ExitCode(code: byte): Message {
    Exit(ExitMsg(Some(code), None))
  }

  /** `as u8` on an `i32`: the low eight bits. */
  function AsU8(x: int): byte {
    (x % 256) as byte
  }

  function StatusExit(s: ExitStatus): ExitMsg {
    match s
    case Exited(code) => ExitMsg(Some(AsU8(code)), None)
    case Signaled(signal) => ExitMsg(None, Some(AsU8(signal)))
    case Unknowable => ExitMsg(None, None)
  }

  function WaitReport(command: string, r: Result<ExitStatus, string>): Message {
    match r
    case Ok(s) => Exit(StatusExit(s))
    case Err(source) => ErrorFor(CannotWait(command, source))
  }

  /** The first env entry without `=`, on which the request is refused. */
  function FirstBadEntry(env: seq<string>): Option<string> {
    if env == [] then None
    else if '=' in env[0] then FirstBadEntry(env[1..])
    else Some(env[0])
  }

  /** What a request leads to: `None` when the child runs, otherwise the one reply. */
  function LaunchReply(q: Request, isDir: bool, spawn: SpawnResult): Option<Message> {
    if !isDir then Some(ErrorFor(NotADirectory(q.cwd)))
    else match FirstBadEntry(q.env)
      case Some(entry) => Some(ErrorFor(BadEnvEntry(entry)))
      case None => match spawn
        case Spawned => None
        case NotFound => Some(ExitCode(127))
        case PermissionDenied => Some(ExitCode(126))
        case SpawnFailed(source) => Some(ErrorFor(CannotSpawn(q.command, source)))
  }

  // ------------------------------------------------------------ reactions

  datatype Reaction = Reaction(conn: Conn, effect: Effect)

  function Stay(c: Conn): Reaction {
    Reaction(c, Quiet)
  }

  function Go(c: Conn, phase: Phase, effect: Effect): Reaction {
    Reaction(c.(phase := phase), effect)
  }

  /** `bridge` returns, and its locals go: the stdin pipe with them. */
  function Leave(c: Conn, phase: Phase, ok: bool): Reaction {
    Reaction(c.(phase := phase, stdinOpen := false), BridgeOver(ok))
  }

  function ReactFirst(c: Conn, i: Input): Reaction {
    match i
    case FrameIn(Ok(RequestVersion)) => Go(c, Replying, Emit(ServerVersion(CURRENT_VERSION)))
    case FrameIn(Ok(Run(request))) => Reaction(c.(phase := Launching(request), command := request.command), Accepted(request))
    case FrameIn(Ok(other)) => Go(c, Replying, Emit(ErrorFor(ExpectedRequest(other.Type()))))
    case FrameIn(Err(e)) => Go(c, Replying, Emit(ErrorFor(Undecodable(e))))
    case FrameEnd => Go(c, Done, Quiet)
    case Stopping => Go(c, Replying, Emit(ServerStopping))
    case _ => Stay(c)
  }

  function ReactLaunch(c: Conn, q: Request, i: Input): Reaction {
    match i
    case Launch(isDir, spawn) => (
      match LaunchReply(q, isDir, spawn)
      case None => Reaction(Conn(Bridging, c.command, true, true, true), ChildStarted)
      case Some(reply) => Go(c, Replying, Emit(reply)))
    case _ => Stay(c)
  }

  function CloseStdin(c: Conn): Reaction {
    if c.stdinOpen then Reaction(c.(stdinOpen := false), DropStdin) else Stay(c)
  }

  function ReactFrame(c: Conn, r: Result<Message, DecodeError>): Reaction {
    match r
    case Ok(Stdin(bytes)) =>
      if bytes == [] then CloseStdin(c)
      else if c.stdinOpen then Go(c, Feeding, Feed(bytes))
      else Stay(c)
    case Ok(Signal(n)) => Reaction(c, Kill(n, Relayed))
    case Ok(_) => Stay(c)
    case Err(e) => Go(c, Rejecting, Emit(ErrorFor(Undecodable(e))))
  }

  function ReactBridge(c: Conn, i: Input): Reaction {
    match i
    case Output(m) => Go(c, Relaying, Emit(m))
    case OutputClosed => Leave(c, AwaitingChild, true)
    case FrameIn(r) => if c.clientWritesOpen then ReactFrame(c, r) else Stay(c)
    case FrameEnd =>
      if c.clientWritesOpen then CloseStdin(c).(conn := c.(stdinOpen := false, clientWritesOpen := false)) else Stay(c)
    case Stopping =>
      if c.stoppingOpen then Reaction(c.(phase := Notifying, stoppingOpen := false), Emit(ServerStopping)) else Stay(c)
    case _ => Stay(c)
  }

  function ReactSend(c: Conn, ok: bool): Reaction {
    match c.phase
    case Replying => Go(c, Done, Quiet)
    case Relaying => if ok then Go(c, Bridging, Quiet) else Leave(c, Abandoning, false)
    case Notifying => Go(c, Bridging, Kill(SIGTERM, Shutdown))
    case Rejecting => Leave(c, Abandoning, false)
    case NotifyingLate => Go(c, AwaitingChildLate, Kill(SIGTERM, Shutdown))
    case Closing => Go(c, Done, Quiet)
    case _ => Stay(c)
  }

  function ReactWait(c: Conn, r: Result<ExitStatus, string>): Reaction {
    match c.phase
    case Reaping => Go(c, Done, Reap)
    case AwaitingChild => Go(c, Reporting(WaitReport(c.command, r)), Reap)
    case AwaitingChildLate => Go(c, Reporting(WaitReport(c.command, r)), Reap)
    case _ => Stay(c)
  }

  function React(c: Conn, i: Input): Reaction {
    match i
    case SendDone(ok) => ReactSend(c, ok)
    case WaitDone(r) => ReactWait(c, r)
    case _ => match c.phase
      case AwaitFirst => ReactFirst(c, i)
      case Launching(q) => ReactLaunch(c, q, i)
      case Bridging => ReactBridge(c, i)
      case Feeding => (
        match i
        case WriteDone(ok) => if ok then Go(c, Bridging, Quiet) else Reaction(c.(phase := Bridging, stdinOpen := false), DropStdin)
        case _ => Stay(c))
      case Abandoning => if i == Proceed then Go(c, Reaping, Kill(SIGTERM, Disconnect)) else Stay(c)
      case AwaitingChild => if i == Stopping then Go(c, NotifyingLate, Emit(ServerStopping)) else Stay(c)
      case Reporting(report) => if i == Proceed then Go(c, Closing, Emit(report)) else Stay(c)
      case _ => Stay(c)
  }

  // ------------------------------------------------------------------ runs

  datatype Task = Task(conn: Conn, trace: seq<Effect>)

  const OPENED := Task(START, [])

  function Step(t: Task, i: Input): Task {
    var r := React(t.conn, i);
    Task(r.conn, if r.effect == Quiet then t.trace else t.trace + [r.effect])
  }

  /** The state after any sequence of inputs; one that the pending await does not listen to is
      passed over. */
  function Play(t: Task, inputs: seq<Input>): Task
    decreases |inputs|
  {
    if inputs == [] then t else Play(Step(t, inputs[0]), inputs[1..])
  }

  /** The task as a mutable object: the locals of `handle_conn` and `bridge`, and what it did. */
  class ConnectionTask {
    var phase: Phase
    var command: string
    var stdinOpen: bool
    var clientWritesOpen: bool
    var stoppingOpen: bool
    var trace: seq<Effect>

    ghost function View(): Task
      reads this
    {
      Task(Conn(phase, command, stdinOpen, clientWritesOpen, stoppingOpen), trace)
    }

    constructor ()
      ensures View() == OPENED
    {
      phase, command := AwaitFirst, "";
      stdinOpen, clientWritesOpen, stoppingOpen := false, false, false;
      trace := [];
    }

    method Reply(m: Message, next: Phase)
      modifies this`phase, this`trace
      ensures phase == next && trace == old(trace) + [Emit(m)]
    {
      trace := trace + [Emit(m)];
      phase := next;
    }

    method OnFirst(i: Input)
      requires phase == AwaitFirst && !i.SendDone? && !i.WaitDone?
      modifies this
      ensures View() == Step(old(View()), i)
    {
      match i {
        case FrameIn(r) =>
          match r {
            case Ok(m) =>
              if m == RequestVersion {
                Reply(ServerVersion(CURRENT_VERSION), Replying);
              } else if m.Run? {
                trace := trace + [Accepted(m.request)];
                phase, command := Launching(m.request), m.request.command;
              } else {
                Reply(ErrorFor(ExpectedRequest(m.Type())), Replying);
              }
            case Err(e) => Reply(ErrorFor(Undecodable(e)), Replying);
          }
        case FrameEnd => phase := Done;
        case Stopping => Reply(ServerStopping, Replying);
        case _ =>
      }
    }

    /** `None` when every entry has an `=`. */
    method CheckEnv(env: seq<string>) returns (bad: Option<string>)
      ensures bad == FirstBadEntry(env)
    {
      for k := 0 to |env|
        invariant FirstBadEntry(env) == FirstBadEntry(env[k..])
      {
        if '=' !in env[k] {
          return Some(env[k]);
        }
        assert env[k..][1..] == env[k + 1..];
      }
      bad := None;
    }

    method OnLaunch(q: Request, isDir: bool, spawn: SpawnResult)
      requires phase == Launching(q)
      modifies this
      ensures View() == Step(old(View()), Launch(isDir, spawn))
    {
      if !isDir {
        Reply(ErrorFor(NotADirectory(q.cwd)), Replying);
        return;
      }
      var bad := CheckEnv(q.env);
      if bad.Some? {
        Reply(ErrorFor(BadEnvEntry(bad.value)), Replying);
        return;
      }
      match spawn {
        case NotFound => Reply(ExitCode(127), Replying);
        case PermissionDenied => Reply(ExitCode(126), Replying);
        case SpawnFailed(source) => Reply(ErrorFor(CannotSpawn(q.command, source)), Replying);
        case Spawned =>
          trace := trace + [ChildStarted];
          stdinOpen, clientWritesOpen, stoppingOpen := true, true, true;
          phase := Bridging;
      }
    }

    /** `stdin = None`. */
    method DropPipe()
      modifies this`stdinOpen, this`trace
      ensures !stdinOpen && trace == if old(stdinOpen) then old(trace) + [DropStdin] else old(trace)
    {
      if stdinOpen {
        stdinOpen := false;
        trace := trace + [DropStdin];
      }
    }

    method OnClientFrame(r: Result<Message, DecodeError>)
      requires phase == Bridging && clientWritesOpen
      modifies this
      ensures View() == Step(old(View()), FrameIn(r))
    {
      match r {
        case Err(e) => Reply(ErrorFor(Undecodable(e)), Rejecting);
        case Ok(m) =>
          match m {
            case Stdin(bytes) =>
              if bytes == [] {
                DropPipe();
              } else if stdinOpen {
                trace := trace + [Feed(bytes)];
                phase := Feeding;
              }
            case Signal(n) => trace := trace + [Kill(n, Relayed)];
            case _ =>
          }
      }
    }

    method OnBridge(i: Input)
      requires phase == Bridging && !i.SendDone? && !i.WaitDone?
      modifies this
      ensures View() == Step(old(View()), i)
    {
      match i {
        case Output(m) => Reply(m, Relaying);
        case OutputClosed =>
          trace := trace + [BridgeOver(true)];
          phase, stdinOpen := AwaitingChild, false;
        case FrameIn(r) =>
          if clientWritesOpen {
            OnClientFrame(r);
          }
        case FrameEnd =>
          if clientWritesOpen {
            DropPipe();
            clientWritesOpen := false;
          }
        case Stopping =>
          if stoppingOpen {
            stoppingOpen := false;
            Reply(ServerStopping, Notifying);
          }
        case _ =>
      }
    }

    method OnSendDone(ok: bool)
      modifies this
      ensures View() == Step(old(View()), SendDone(ok))
    {
      match phase {
        case Replying => phase := Done;
        case Closing => phase := Done;
        case Relaying =>
          if ok {
            phase := Bridging;
          } else {
            trace := trace + [BridgeOver(false)];
            phase, stdinOpen := Abandoning, false;
          }
        case Notifying =>
          trace := trace + [Kill(SIGTERM, Shutdown)];
          phase := Bridging;
        case NotifyingLate =>
          trace := trace + [Kill(SIGTERM, Shutdown)];
          phase := AwaitingChildLate;
        case Rejecting =>
          trace := trace + [BridgeOver(false)];
          phase, stdinOpen := Abandoning, false;
        case _ =>
      }
    }

    method OnWaitDone(status: Result<ExitStatus, string>)
      modifies this
      ensures View() == Step(old(View()), WaitDone(status))
    {
      if phase.Reaping? || phase.AwaitingChild? || phase.AwaitingChildLate? {
        trace := trace + [Reap];
        phase := if phase.Reaping? then Done else Reporting(WaitReport(command, status));
      }
    }

    method OnOther(i: Input)
      requires !i.SendDone? && !i.WaitDone? && !phase.AwaitFirst? && !phase.Launching? && !phase.Bridging?
      modifies this
      ensures View() == Step(old(View()), i)
    {
      match phase {
        case Feeding =>
          if i.WriteDone? {
            if !i.ok {
              stdinOpen := false;
              trace := trace + [DropStdin];
            }
            phase := Bridging;
          }
        case Abandoning =>
          if i == Proceed {
            trace := trace + [Kill(SIGTERM, Disconnect)];
            phase := Reaping;
          }
        case AwaitingChild =>
          if i == Stopping {
            Reply(ServerStopping, NotifyingLate);
          }
        case Reporting(report) =>
          if i == Proceed {
            Reply(report, Closing);
          }
        case _ =>
      }
    }

    method OnInput(i: Input)
      modifies this
      ensures View() == Step(old(View()), i)
    {
      if i.SendDone? {
        OnSendDone(i.ok);
      } else if i.WaitDone? {
        OnWaitDone(i.status);
      } else {
        match phase {
          case AwaitFirst => OnFirst(i);
          case Launching(q) => if i.Launch? { OnLaunch(q, i.isDir, i.spawn); }
          case Bridging => OnBridge(i);
          case _ => OnOther(i);
        }
      }
    }

    method Drive(inputs: seq<Input>)
      modifies this
      ensures View() == Play(old(View()), inputs)
    {
      ghost var whole := Play(View(), inputs);
      var k := 0;
      while k < |inputs|
        invariant 0 <= k <= |inputs|
        invariant Play(View(), inputs[k..]) == whole
      {
        assert inputs[k..][0] == inputs[k] && inputs[k..][1..] == inputs[k + 1..];
        OnInput(inputs[k]);
        k := k + 1;
      }
    }
  }

  function Emits(trace: seq<Effect>): seq<Message> {
    if trace == [] then []
    else
      var front := Emits(trace[..|trace| - 1]);
      match trace[|trace| - 1]
      case Emit(m) => front + [m]
      case _ => front
  }
}
