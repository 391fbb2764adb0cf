/** One exec connection as a whole: the child and its pipes, the two output pumps and their shared
    channel, the server task, the two directions of the socket, the client session and its stdin
    pump. Every `select!`, every partial read or write and every failure is a step; a step whose
    guard does not hold leaves the state as it is, so every list of steps is a run. */
module ExecConnection {
  import opened Wrappers
  import opened Protocol
  import L = Link
  import S = ServerConnection
  import C = ClientSession

  const BUFFER: nat := 8 * 1024
  const OUTPUT_CHANNEL: nat := 64
  const STDIN_CHANNEL: nat := 8

  /** One output pipe of the child and the pump task that reads it. */
  datatype Pump = Pump(
    pipe: seq<byte>,      // written by the child, not yet read
    closed: bool,         // no writer is left
    read: seq<byte>,      // everything the pump has read
    held: seq<byte>,      // a chunk waiting for room in the channel
    live: bool,           // the pump task runs
    faulted: bool,        // it stopped on a read error
    written: seq<byte>)   // everything the child ever wrote

  const IDLE_PUMP := Pump([], false, [], [], false, false, [])

  datatype Child = NotStarted | Alive | Ended(status: S.ExitStatus) | Reaped(status: S.ExitStatus)

  datatype Server = Server(
    task: S.Task,
    out: Pump,
    err: Pump,
    queue: seq<Message>,      // the channel both pumps feed
    child: Child,
    feeding: seq<byte>,       // the part of a stdin chunk that `write_all` has yet to write
    childIn: seq<byte>,       // everything written to the child's stdin
    eofClosed: bool,          // an empty `Stdin` frame closed the still-open pipe
    delivered: seq<byte>)     // signals delivered for `Signal` frames

  datatype Host = Host(
    session: C.Session,
    hostRead: seq<byte>,                // everything the stdin pump has read
    held: seq<byte>,                    // a chunk waiting for room in the channel
    live: bool,                         // the pump has not met the end of host stdin
    queue: seq<Option<seq<byte>>>)      // the stdin channel; `None` marks the end

  datatype System = System(
    server: Server,
    host: Host,
    s2c: L.Link,
    c2s: L.Link,
    stop: bool,               // the shutdown flag; never goes back
    serverUp: bool,           // the server process has not been torn down
    clientUp: bool)           // the client process has not been killed

  function Begin(json: Json, request: Request): System {
    System(
      Server(S.OPENED, IDLE_PUMP, IDLE_PUMP, [], NotStarted, [], [], false, []),
      Host(C.BEGUN.(sent := [Run(request)]), [], [], true, []),
      L.FRESH,
      L.Push(json, L.FRESH, Run(request)),
      false, true, true)
  }

  // ----------------------------------------------------------------- steps

  datatype PumpStep =
    | ChildWrites(bytes: seq<byte>)
    | PipeCloses
    | ReadChunk(size: nat)
    | QueueChunk
    | ReadEof
    | ReadError
    | ReceiverGone

  datatype NetStep = Flush(size: nat) | Break | Deliver(size: nat)

  datatype ServerStep =
    | TakeFrame
    | SocketError
    | TakeEof
    | SeeStop
    | Launch(isDir: bool, spawn: S.SpawnResult)
    | TakeOutput
    | OutputsClosed
    | SendReturns(ok: bool)
    | FeedSome(size: nat)
    | FeedReturns(ok: bool)
    | WaitReturns
    | WaitFails(source: string)
    | Continue

  datatype ClientStep =
    | Install(ok: bool)
    | GetFrame(cut: Option<nat>)
    | GetError
    | GetEof
    | TakeStdin
    | TakeStdinEnd
    | Raise(signal: byte)
    | SignalEnds(signal: byte)
    | SendBack(ok: bool)

  datatype StdinStep = HostChunk(bytes: seq<byte>) | HostQueue | HostEof | SessionGone

  datatype Step =
    | StopRaised
    | ChildExits(status: S.ExitStatus)
    | ServerDies
    | ClientDies
    | OutPump(p: PumpStep)
    | ErrPump(p: PumpStep)
    | ToClient(n: NetStep)
    | ToServer(n: NetStep)
    | OnServer(s: ServerStep)
    | OnClient(c: ClientStep)
    | StdinPump(h: StdinStep)

  // ----------------------------------------------------------------- pumps

  predicate ReceiverAlive(p: S.Phase) {
    p.Bridging? || p.Relaying? || p.Feeding? || p.Notifying? || p.Rejecting?
  }

  /** A pump step, on the pipe and the shared queue. `stdout` says which message it wraps into. */
  function MovePump(p: Pump, queue: seq<Message>, receiver: bool, stdout: bool, st: PumpStep): (Pump, seq<Message>) {
    match st
    case ChildWrites(bytes) => if p.closed then (p, queue) else (p.(pipe := p.pipe + bytes, written := p.written + bytes), queue)
    case PipeCloses => (p.(closed := true), queue)
    case ReadChunk(n) =>
      if p.live && p.held == [] && 0 < n <= BUFFER && n <= |p.pipe|
      then (p.(pipe := p.pipe[n..], held := p.pipe[..n], read := p.read + p.pipe[..n]), queue)
      else (p, queue)
    case QueueChunk =>
      if p.held != [] && receiver && |queue| < OUTPUT_CHANNEL
      then (p.(held := []), queue + [if stdout then Stdout(p.held) else Stderr(p.held)])
      else (p, queue)
    case ReadEof => if p.live && p.held == [] && p.pipe == [] && p.closed then (p.(live := false), queue) else (p, queue)
    case ReadError => if p.live && p.held == [] then (p.(live := false, faulted := true), queue) else (p, queue)
    case ReceiverGone => if p.held != [] && !receiver then (p.(live := false, held := []), queue) else (p, queue)
  }

  // ---------------------------------------------------------------- socket

  function MoveLink(l: L.Link, senderUp: bool, st: NetStep): L.Link {
    match st
    case Flush(n) => if senderUp && !l.broken && n <= |l.wbuf| then L.Flush(l, n) else l
    case Break => if l.wbuf != [] then l.(broken := true) else l
    case Deliver(n) => if n <= |l.flight| then L.Deliver(l, n) else l
  }

  /** When `send` may return: well, once everything is written; badly, if the encoder refused or the
      socket is broken. */
  predicate SendMayReturn(l: L.Link, ok: bool) {
    if ok then !l.rejected && l.wbuf == [] else l.rejected || l.broken
  }

  // ---------------------------------------------------------------- server

  function Act(json: Json, s: System, i: S.Input, e: S.Effect): System {
    match e
    case Emit(m) => s.(s2c := L.Push(json, s.s2c, m))
    case ChildStarted =>
      s.(server := s.server.(child := Alive, out := s.server.out.(live := true), err := s.server.err.(live := true)))
    case Feed(bytes) => s.(server := s.server.(feeding := bytes))
    case DropStdin =>
      s.(server := s.server.(feeding := [], eofClosed := s.server.eofClosed || i == S.FrameIn(Ok(Stdin([])))))
    case Kill(n, Relayed) => s.(server := s.server.(delivered := s.server.delivered + [n]))
    case _ => s
  }

  /** The server task takes an input; its effect reaches the world. */
  function React(json: Json, s: System, i: S.Input): System {
    var e := S.React(s.server.task.conn, i).effect;
    Act(json, s.(server := s.server.(task := S.Step(s.server.task, i))), i, e)
  }

  predicate Polls(c: S.Conn) {
    c.phase.AwaitFirst? || (c.phase.Bridging? && c.clientWritesOpen)
  }

  predicate Waits(p: S.Phase) {
    p.Reaping? || p.AwaitingChild? || p.AwaitingChildLate?
  }

  predicate Sends(p: S.Phase) {
    p.Replying? || p.Relaying? || p.Notifying? || p.Rejecting? || p.NotifyingLate? || p.Closing?
  }

  predicate ClientClosed(s: System) {
    !s.clientUp || s.host.session.client.phase.Finished?
  }

  datatype Offer<I> = Nothing | Offer(world: System, input: I)

  /** Which input a server step offers to the task, and the world as it is taken. */
  function ServerOffer(json: Json, s: System, st: ServerStep): Offer<S.Input> {
    var v, c := s.server, s.server.task.conn;
    match st
    case TakeFrame =>
      if !Polls(c) then Nothing
      else (match ScanFrame(s.c2s.rbuf)
        case NeedMore => Nothing
        case Bad(e) => Offer(s, S.FrameIn(Err(e)))
        case Got(f, _) => Offer(s.(c2s := L.Pop(s.c2s)), S.FrameIn(FromFrame(json, f))))
    case SocketError => if Polls(c) then Offer(s, S.FrameIn(Err(ReadFailure))) else Nothing
    case TakeEof =>
      if Polls(c) && ClientClosed(s) && s.c2s.flight == [] && ScanFrame(s.c2s.rbuf).NeedMore?
      then Offer(s, if s.c2s.rbuf == [] then S.FrameEnd else S.FrameIn(Err(ReadFailure)))
      else Nothing
    case SeeStop => if s.stop then Offer(s, S.Stopping) else Nothing
    case Launch(isDir, spawn) => if c.phase.Launching? then Offer(s, S.Launch(isDir, spawn)) else Nothing
    case TakeOutput =>
      if c.phase.Bridging? && v.queue != []
      then Offer(s.(server := v.(queue := v.queue[1..])), S.Output(v.queue[0]))
      else Nothing
    case OutputsClosed =>
      if c.phase.Bridging? && v.queue == [] && !v.out.live && !v.err.live then Offer(s, S.OutputClosed) else Nothing
    case SendReturns(ok) => if Sends(c.phase) && SendMayReturn(s.s2c, ok) then Offer(s, S.SendDone(ok)) else Nothing
    case FeedSome(_) => Nothing
    case FeedReturns(ok) => if c.phase.Feeding? && (ok ==> v.feeding == []) then Offer(s, S.WriteDone(ok)) else Nothing
    case WaitReturns =>
      if Waits(c.phase) && v.child.Ended?
      then Offer(s.(server := v.(child := Reaped(v.child.status))), S.WaitDone(Ok(v.child.status)))
      else Nothing
    case WaitFails(source) => if Waits(c.phase) then Offer(s, S.WaitDone(Err(source))) else Nothing
    case Continue => Offer(s, S.Proceed)
  }

  function MoveServer(json: Json, s: System, st: ServerStep): System {
    var v := s.server;
    if st.FeedSome? then
      if v.task.conn.phase.Feeding? && st.size <= |v.feeding|
      then s.(server := v.(childIn := v.childIn + v.feeding[..st.size], feeding := v.feeding[st.size..]))
      else s
    else match ServerOffer(json, s, st)
      case Nothing => s
      case Offer(world, i) => React(json, world, i)
  }

  // ---------------------------------------------------------------- client

  function ClientReact(json: Json, s: System, i: C.Input): System {
    var r := C.React(s.host.session.client, i);
    var t := s.(host := s.host.(session := C.Step(s.host.session, i)));
    match r.effect
    case Transmit(m) => t.(c2s := L.Push(json, t.c2s, m))
    case _ => t
  }

  predicate ServerClosed(s: System) {
    !s.serverUp || s.server.task.conn.phase.Done?
  }

  function ClientOffer(json: Json, s: System, st: ClientStep): Offer<C.Input> {
    var h, c := s.host, s.host.session.client;
    match st
    case Install(ok) => if c.phase.Installing? then Offer(s, C.Installed(ok)) else Nothing
    case GetFrame(cut) =>
      if !c.phase.Looping? then Nothing
      else (match ScanFrame(s.s2c.rbuf)
        case NeedMore => Nothing
        case Bad(e) => Offer(s, C.FrameIn(Err(e), cut))
        case Got(f, _) => Offer(s.(s2c := L.Pop(s.s2c)), C.FrameIn(FromFrame(json, f), cut)))
    case GetError => if c.phase.Looping? then Offer(s, C.FrameIn(Err(ReadFailure), None)) else Nothing
    case GetEof =>
      if c.phase.Looping? && ServerClosed(s) && s.s2c.flight == [] && ScanFrame(s.s2c.rbuf).NeedMore?
      then Offer(s, if s.s2c.rbuf == [] then C.FrameEnd else C.FrameIn(Err(ReadFailure), None))
      else Nothing
    case TakeStdin =>
      if c.phase.Looping? && c.stdinOpen && h.queue != [] && h.queue[0].Some?
      then Offer(s.(host := h.(queue := h.queue[1..])), C.Chunk(h.queue[0].value))
      else Nothing
    case TakeStdinEnd =>
      if c.phase.Looping? && c.stdinOpen && h.queue != [] && h.queue[0].None?
      then Offer(s.(host := h.(queue := h.queue[1..])), C.StdinEnd)
      else if c.phase.Looping? && c.stdinOpen && h.queue == [] && !h.live && h.held == []
      then Offer(s, C.StdinEnd)
      else Nothing
    case Raise(n) => if c.phase.Looping? then Offer(s, C.Raised(n)) else Nothing
    case SignalEnds(n) => if c.phase.Looping? then Offer(s, C.SignalClosed(n)) else Nothing
    case SendBack(ok) =>
      if (c.phase.Opening? || c.phase.Sending?) && SendMayReturn(s.c2s, ok) then Offer(s, C.Sent(ok)) else Nothing
  }

  function MoveClient(json: Json, s: System, st: ClientStep): System {
    match ClientOffer(json, s, st)
    case Nothing => s
    case Offer(world, i) => ClientReact(json, world, i)
  }

  function MoveStdin(h: Host, st: StdinStep): Host {
    match st
    case HostChunk(bytes) =>
      if h.live && h.held == [] && 0 < |bytes| <= BUFFER
      then h.(held := bytes, hostRead := h.hostRead + bytes)
      else h
    case HostQueue =>
      if h.held != [] && |h.queue| < STDIN_CHANNEL && !h.session.client.phase.Finished?
      then h.(held := [], queue := h.queue + [Some(h.held)])
      else h
    case HostEof =>
      if h.live && h.held == [] && |h.queue| < STDIN_CHANNEL && !h.session.client.phase.Finished?
      then h.(live := false, queue := h.queue + [None])
      else h
    case SessionGone =>
      if h.session.client.phase.Finished? then h.(live := false, held := []) else h
  }

  // ------------------------------------------------------------------ runs

  function Next(json: Json, s: System, st: Step): System {
    match st
    case StopRaised => s.(stop := true)
    case ChildExits(status) => if s.server.child.Alive? then s.(server := s.server.(child := Ended(status))) else s
    case ServerDies => s.(serverUp := false)
    case ClientDies => s.(clientUp := false)
    case OutPump(p) =>
      if !s.serverUp || s.server.child.NotStarted? then s
      else
        var m := MovePump(s.server.out, s.server.queue, ReceiverAlive(s.server.task.conn.phase), true, p);
        s.(server := s.server.(out := m.0, queue := m.1))
    case ErrPump(p) =>
      if !s.serverUp || s.server.child.NotStarted? then s
      else
        var m := MovePump(s.server.err, s.server.queue, ReceiverAlive(s.server.task.conn.phase), false, p);
        s.(server := s.server.(err := m.0, queue := m.1))
    case ToClient(n) => s.(s2c := MoveLink(s.s2c, s.serverUp, n))
    case ToServer(n) => s.(c2s := MoveLink(s.c2s, s.clientUp, n))
    case OnServer(m) => if s.serverUp then MoveServer(json, s, m) else s
    case OnClient(m) => if s.clientUp then MoveClient(json, s, m) else s
    case StdinPump(m) => if s.clientUp then s.(host := MoveStdin(s.host, m)) else s
  }

  function Execute(json: Json, s: System, steps: seq<Step>): System
    decreases |steps|
  {
    if steps == [] then s else Execute(json, Next(json, s, steps[0]), steps[1..])
  }
}
