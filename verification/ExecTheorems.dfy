/** The end-to-end guarantees of an exec connection, for every list of steps. */
module ExecTheorems {
  import opened Wrappers
  import opened Protocol
  import L = Link
  import S = ServerConnection
  import P = ServerProtocol
  import C = ClientSession
  import opened ExecConnection
  import opened ExecSafety
  import opened ExecInput

  // --------------------------------------------------- what the client shows

  function ShownOf(k: Kind, x: C.Session): seq<byte> {
    if k.OutBytes? then x.out else x.err
  }

  predicate Decisive(m: Message) {
    P.Terminal(m) || m.ServerStopping?
  }

  ghost predicate Undecided(ms: seq<Message>) {
    forall m <- ms :: !Decisive(m)
  }

  /** The last frame taken is `m`, and nothing before it decided anything. */
  ghost predicate DecidedBy(seen: seq<Message>, m: Message) {
    seen != [] && seen[|seen| - 1] == m && Undecided(seen[..|seen| - 1])
  }

  /** What a session that is over was ended by, among the frames it took. */
  ghost predicate Caused(x: C.Session, cause: C.Cause, seen: seq<Message>) {
    match cause
    case ByExit(e) => DecidedBy(seen, Exit(e)) && x.out == Gather(OutBytes, seen) && x.err == Gather(ErrBytes, seen)
    case ByError(text) => DecidedBy(seen, Error(text))
    case ByStopping => DecidedBy(seen, ServerStopping)
    case ByReceive(e) => e == ReadFailure && Undecided(seen)
    case _ => Undecided(seen)
  }

  /** The terminal holds the output of the frames taken so far; once the session is over, a prefix. */
  ghost predicate Shown(x: C.Session, seen: seq<Message>) {
    && x.out <= Gather(OutBytes, seen)
    && x.err <= Gather(ErrBytes, seen)
    && (x.client.phase.Finished? ==> Caused(x, x.client.phase.cause, seen))
    && (!x.client.phase.Finished? ==>
          Undecided(seen) && x.out == Gather(OutBytes, seen) && x.err == Gather(ErrBytes, seen))
  }

  ghost predicate ShownOk(s: System) {
    s.s2c.got <= |s.s2c.sent| && Shown(s.host.session, s.s2c.sent[..s.s2c.got])
  }

  lemma DecidedSnoc(seen: seq<Message>, m: Message)
    requires Undecided(seen)
    ensures if Decisive(m) then DecidedBy(seen + [m], m) else Undecided(seen + [m])
  {
    assert (seen + [m])[..|seen|] == seen;
  }

  lemma SameGather(k: Kind, seen: seq<Message>, m: Message)
    requires Part(k, m) == []
    ensures Gather(k, seen + [m]) == Gather(k, seen)
  {
    GatherSnoc(k, seen, m);
    assert Gather(k, seen) + [] == Gather(k, seen);
  }

  lemma ShownOutput(x: C.Session, seen: seq<Message>, m: Message, cut: Option<nat>)
    requires Shown(x, seen) && x.client.phase.Looping? && (m.Stdout? || m.Stderr?)
    ensures Shown(C.Step(x, C.FrameIn(Ok(m), cut)), seen + [m])
  {
    DecidedSnoc(seen, m);
    if m.Stdout? {
      GatherSnoc(OutBytes, seen, m);
      SameGather(ErrBytes, seen, m);
    } else {
      GatherSnoc(ErrBytes, seen, m);
      SameGather(OutBytes, seen, m);
    }
  }

  lemma ShownQuiet(x: C.Session, seen: seq<Message>, m: Message, cut: Option<nat>)
    requires Shown(x, seen) && x.client.phase.Looping? && !m.Stdout? && !m.Stderr?
    ensures Shown(C.Step(x, C.FrameIn(Ok(m), cut)), seen + [m])
  {
    DecidedSnoc(seen, m);
    SameGather(OutBytes, seen, m);
    SameGather(ErrBytes, seen, m);
  }

  lemma ShownFrame(x: C.Session, seen: seq<Message>, m: Message, cut: Option<nat>)
    requires Shown(x, seen) && x.client.phase.Looping?
    ensures Shown(C.Step(x, C.FrameIn(Ok(m), cut)), seen + [m])
  {
    if m.Stdout? || m.Stderr? {
      ShownOutput(x, seen, m, cut);
    } else {
      ShownQuiet(x, seen, m, cut);
    }
  }

  lemma ShownOther(x: C.Session, seen: seq<Message>, i: C.Input)
    requires Shown(x, seen)
    requires i.FrameIn? ==> i.r == Err(ReadFailure)
    ensures Shown(C.Step(x, i), seen)
  {
  }

  lemma OfferShown(json: Json, s: System, m: ClientStep)
    requires !(m.GetFrame? && !ScanFrame(s.s2c.rbuf).NeedMore?)
    ensures var o := ClientOffer(json, s, m);
            o.Offer? ==> o.world.host.session == s.host.session && o.world.s2c == s.s2c
                         && (o.input.FrameIn? ==> o.input.r == Err(ReadFailure))
  {
  }

  lemma ReactShows(json: Json, s: System, i: C.Input)
    ensures ClientReact(json, s, i).host.session == C.Step(s.host.session, i)
    ensures ClientReact(json, s, i).s2c == s.s2c
  {
  }

  lemma TakesNext(json: Json, s: System, cut: Option<nat>)
    requires Faithful(json) && L.Intact(json, s.s2c)
    requires s.host.session.client.phase.Looping? && ScanFrame(s.s2c.rbuf).Got?
    ensures s.s2c.got < |s.s2c.sent|
    ensures var t := MoveClient(json, s, GetFrame(cut));
            && t.host.session == C.Step(s.host.session, C.FrameIn(Ok(s.s2c.sent[s.s2c.got]), cut))
            && t.s2c.sent == s.s2c.sent && t.s2c.got == s.s2c.got + 1
  {
    L.Receive(json, s.s2c);
    ReactShows(json, s.(s2c := L.Pop(s.s2c)), C.FrameIn(Ok(s.s2c.sent[s.s2c.got]), cut));
  }

  lemma ShownTakes(json: Json, s: System, cut: Option<nat>)
    requires Faithful(json) && L.Intact(json, s.s2c) && ShownOk(s)
    requires s.host.session.client.phase.Looping? && ScanFrame(s.s2c.rbuf).Got?
    ensures ShownOk(MoveClient(json, s, GetFrame(cut)))
  {
    var sent, got := s.s2c.sent, s.s2c.got;
    TakesNext(json, s, cut);
    ShownFrame(s.host.session, sent[..got], sent[got], cut);
    OneMore(sent, got);
  }

  lemma OneMore(sent: seq<Message>, got: nat)
    requires got < |sent|
    ensures sent[..got + 1] == sent[..got] + [sent[got]]
  {
  }

  lemma ShownStays(json: Json, s: System, m: ClientStep)
    requires ShownOk(s) && !(m.GetFrame? && !ScanFrame(s.s2c.rbuf).NeedMore?)
    ensures ShownOk(MoveClient(json, s, m))
  {
    OfferShown(json, s, m);
    var o := ClientOffer(json, s, m);
    if o.Offer? {
      ReactShows(json, o.world, o.input);
      ShownOther(s.host.session, s.s2c.sent[..s.s2c.got], o.input);
    }
  }

  lemma ShownClient(json: Json, s: System, m: ClientStep)
    requires Faithful(json) && L.Intact(json, s.s2c) && ShownOk(s)
    ensures ShownOk(MoveClient(json, s, m))
  {
    L.Receive(json, s.s2c);
    if m.GetFrame? && ScanFrame(s.s2c.rbuf).Got? {
      if s.host.session.client.phase.Looping? {
        ShownTakes(json, s, m.cut);
      }
    } else {
      ShownStays(json, s, m);
    }
  }

  lemma ServerSends(json: Json, s: System, m: ServerStep)
    ensures s.s2c.sent <= MoveServer(json, s, m).s2c.sent
  {
    var o := ServerOffer(json, s, m);
    if o.Offer? {
      OfferFrame(json, s, m);
      ReactSends(json, o.world, o.input);
    }
  }

  lemma ReactSends(json: Json, s: System, i: S.Input)
    ensures s.s2c.sent <= React(json, s, i).s2c.sent
  {
    ReactIsTook(json, s, i);
  }

  lemma ShownServer(json: Json, s: System, m: ServerStep)
    requires ShownOk(s)
    ensures ShownOk(MoveServer(json, s, m))
  {
    ServerFrame(json, s, m);
    ServerSends(json, s, m);
    assert MoveServer(json, s, m).s2c.sent[..s.s2c.got] == s.s2c.sent[..s.s2c.got];
  }

  lemma ElsewhereTakesNothing(json: Json, s: System, st: Step)
    requires !st.OnServer? && !st.OnClient?
    ensures Next(json, s, st).s2c.got == s.s2c.got && Next(json, s, st).host.session == s.host.session
  {
    if st.StdinPump? {
      StdinPumpKeeps(s.host, st.h);
    }
  }

  lemma ShownElsewhere(json: Json, s: System, st: Step)
    requires ShownOk(s) && !st.OnServer? && !st.OnClient?
    ensures ShownOk(Next(json, s, st))
  {
    TaskElsewhere(json, s, st);
    ElsewhereTakesNothing(json, s, st);
    ShownSame(s, Next(json, s, st));
  }

  lemma ShownSame(s: System, t: System)
    requires ShownOk(s) && t.s2c.sent == s.s2c.sent && t.s2c.got == s.s2c.got && t.host.session == s.host.session
    ensures ShownOk(t)
  {
  }

  lemma ShownNext(json: Json, s: System, st: Step)
    requires Faithful(json) && L.Intact(json, s.s2c) && ShownOk(s)
    ensures ShownOk(Next(json, s, st))
  {
    match st
    case OnServer(m) => ShownServer(json, s, m);
    case OnClient(m) => ShownClient(json, s, m);
    case _ => ShownElsewhere(json, s, st);
  }

  // ---------------------------------------------------------- every state

  ghost predicate Invariant(json: Json, s: System) {
    && Wires(json, s)
    && Spoken(json, s)
    && QueueOk(s)
    && FlowOf(OutBytes, s)
    && FlowOf(ErrBytes, s)
    && PipedOk(s)
    && ExitOk(s)
    && HostOk(s)
    && RelayOk(s)
    && ShownOk(s)
  }

  lemma InvariantNext(json: Json, s: System, st: Step)
    requires Faithful(json) && Invariant(json, s)
    ensures Invariant(json, Next(json, s, st))
  {
    WiresNext(json, s, st);
    SpokenNext(json, s, st);
    QueueNext(json, s, st);
    FlowNext(json, OutBytes, s, st);
    FlowNext(json, ErrBytes, s, st);
    PipedNext(json, s, st);
    ExitNext(json, s, st);
    HostNext(json, s, st);
    RelayNext(json, s, st);
    ShownNext(json, s, st);
  }

  lemma BeginFlow(k: Kind, c: S.Conn)
    requires IsOutput(k) && c.phase.AwaitFirst?
    ensures Flow(k, IDLE_PUMP, [], [], c, [])
  {
  }

  lemma BeginSpoken(json: Json, request: Request)
    ensures Spoken(json, Begin(json, request))
  {
    P.OpenedIsGood();
  }

  lemma BeginServer(json: Json, request: Request)
    ensures var s := Begin(json, request);
            QueueOk(s) && FlowOf(OutBytes, s) && FlowOf(ErrBytes, s) && PipedOk(s) && ExitOk(s)
  {
    BeginFlow(OutBytes, S.START);
    BeginFlow(ErrBytes, S.START);
  }

  lemma BeginClient(json: Json, request: Request)
    ensures var s := Begin(json, request); HostOk(s) && RelayOk(s) && ShownOk(s)
  {
    GatherSnoc(Signals, [], Run(request));
    GatherSnoc(InBytes, [], Run(request));
    assert [] + [Run(request)] == [Run(request)];
  }

  lemma InvariantBegin(json: Json, request: Request)
    ensures Invariant(json, Begin(json, request))
  {
    L.PushIntact(json, L.FRESH, Run(request));
    BeginSpoken(json, request);
    BeginServer(json, request);
    BeginClient(json, request);
  }

  lemma {:induction false} InvariantAlways(json: Json, s: System, steps: seq<Step>)
    requires Faithful(json) && Invariant(json, s)
    ensures Invariant(json, Execute(json, s, steps))
    decreases |steps|
  {
    if steps != [] {
      InvariantNext(json, s, steps[0]);
      InvariantAlways(json, Next(json, s, steps[0]), steps[1..]);
    }
  }

  // ------------------------------------------------------- the guarantees

  /** Any state an exec connection can get into. */
  ghost predicate Reached(json: Json, s: System) {
    exists request: Request, steps: seq<Step> :: s == Execute(json, Begin(json, request), steps)
  }

  lemma ReachedInvariant(json: Json, s: System)
    requires Faithful(json) && Reached(json, s)
    ensures Invariant(json, s)
  {
    var request: Request, steps: seq<Step> :| s == Execute(json, Begin(json, request), steps);
    InvariantBegin(json, request);
    InvariantAlways(json, Begin(json, request), steps);
  }

  lemma {:induction false} AcceptedAreSaid(json: Json, ms: seq<Message>, m: Message)
    ensures m in Accepted(json, ms) ==> m in ms
    decreases |ms|
  {
    if ms != [] {
      AcceptedAreSaid(json, ms[..|ms| - 1], m);
    }
  }

  lemma AcceptedStreamed(json: Json, ms: seq<Message>)
    requires P.Streamed(ms)
    ensures P.Streamed(Accepted(json, ms))
  {
    forall m | m in Accepted(json, ms) ensures P.Streaming(m) {
      AcceptedAreSaid(json, ms, m);
    }
  }

  lemma {:induction false} AcceptedNotices(json: Json, ms: seq<Message>)
    ensures P.Notices(Accepted(json, ms)) <= P.Notices(ms)
    decreases |ms|
  {
    if ms != [] {
      AcceptedNotices(json, ms[..|ms| - 1]);
      P.NoticesSnoc(Accepted(json, ms[..|ms| - 1]), ms[|ms| - 1]);
    }
  }

  lemma AcceptedTerminated(json: Json, ms: seq<Message>)
    requires P.Terminated(ms)
    ensures P.Streamed(Accepted(json, ms)) || P.Terminated(Accepted(json, ms))
  {
    var front, last := ms[..|ms| - 1], ms[|ms| - 1];
    AcceptedStreamed(json, front);
    if L.Wire(json, last).Some? {
      assert (Accepted(json, front) + [last])[..|Accepted(json, front)|] == Accepted(json, front);
    }
  }

  lemma GrammarAccepted(json: Json, ms: seq<Message>)
    requires P.Grammar(ms)
    ensures P.Grammar(Accepted(json, ms))
  {
    AcceptedNotices(json, ms);
    if P.Streamed(ms) {
      AcceptedStreamed(json, ms);
    } else if P.Terminated(ms) {
      AcceptedTerminated(json, ms);
    } else {
      assert ms[..0] == [] && Accepted(json, []) == [];
      assert [] + [ms[0]] == ms;
    }
  }

  lemma GrammarPrefix(ms: seq<Message>, n: nat)
    requires P.Grammar(ms) && n <= |ms|
    ensures P.Grammar(ms[..n])
  {
    NoticesPrefix(ms, n);
    if n == |ms| {
      assert ms[..n] == ms;
    } else if P.Terminated(ms) {
      assert forall m <- ms[..n] :: m in ms[..|ms| - 1];
    }
  }

  lemma {:induction false} NoticesPrefix(ms: seq<Message>, n: nat)
    requires n <= |ms|
    ensures P.Notices(ms[..n]) <= P.Notices(ms)
    decreases |ms|
  {
    if n < |ms| {
      assert ms[..|ms| - 1][..n] == ms[..n];
      NoticesPrefix(ms[..|ms| - 1], n);
    } else {
      assert ms[..n] == ms;
    }
  }

  lemma ReachedSaid(json: Json, s: System)
    requires Faithful(json) && Reached(json, s)
    ensures s.s2c.sent == Accepted(json, S.Emits(s.server.task.trace)) && P.Grammar(s.s2c.sent)
  {
    ReachedInvariant(json, s);
    SpokenGrammar(json, s);
  }

  lemma SpokenGrammar(json: Json, s: System)
    requires Spoken(json, s)
    ensures P.Grammar(s.s2c.sent)
  {
    var t := s.server.task;
    P.SpeechIsGrammar(t.conn, S.Emits(t.trace), P.Requested(t.trace));
    GrammarAccepted(json, S.Emits(t.trace));
  }

  lemma ReachedWires(json: Json, s: System)
    requires Faithful(json) && Reached(json, s)
    ensures L.Intact(json, s.s2c) && L.Intact(json, s.c2s)
  {
    ReachedInvariant(json, s);
  }

  lemma ReachedShown(json: Json, s: System)
    requires Faithful(json) && Reached(json, s)
    ensures ShownOk(s)
  {
    ReachedInvariant(json, s);
  }

  lemma ReachedFlow(json: Json, k: Kind, s: System)
    requires Faithful(json) && Reached(json, s) && IsOutput(k)
    ensures FlowOf(k, s) && PipedOk(s) && ExitOk(s)
  {
    ReachedInvariant(json, s);
  }

  /** What the receiving decoder finds next, if anything, is the next frame that was sent. */
  ghost predicate NextIsNext(json: Json, l: L.Link) {
    var scan := ScanFrame(l.rbuf);
    && !scan.Bad?
    && (scan.Got? ==> l.got < |l.sent| && FromFrame(json, scan.frame) == Ok(l.sent[l.got]))
  }

  /** Both directions are faithful: what the client has taken is, frame by frame, the beginning of what
      the server said, and follows the grammar; what it decodes next is the next frame said, and so for
      the server; neither decoder ever fails. */
  lemma ReceivedIsSaid(json: Json, s: System)
    requires Faithful(json) && Reached(json, s)
    ensures s.s2c.sent == Accepted(json, S.Emits(s.server.task.trace))
    ensures s.s2c.got <= |s.s2c.sent| && P.Grammar(s.s2c.sent[..s.s2c.got])
    ensures NextIsNext(json, s.s2c) && NextIsNext(json, s.c2s)
  {
    ReachedSaid(json, s);
    ReachedWires(json, s);
    GrammarPrefix(s.s2c.sent, s.s2c.got);
    L.Receive(json, s.s2c);
    L.Receive(json, s.c2s);
  }

  /** So a client never gives up on a frame: only a failed socket read makes it report one. */
  lemma NoSpoiledFrame(json: Json, s: System)
    requires Faithful(json) && Reached(json, s)
    requires s.host.session.client.phase.Finished? && s.host.session.client.phase.cause.ByReceive?
    ensures s.host.session.client.phase.cause.error == ReadFailure
  {
    ReachedShown(json, s);
  }

  lemma StreamedAt(ms: seq<Message>, n: nat)
    requires n <= |ms| && P.Streamed(ms[..n])
    ensures forall j :: 0 <= j < n ==> P.Streaming(ms[j])
  {
    forall j | 0 <= j < n ensures P.Streaming(ms[j]) {
      assert ms[..n][j] in ms[..n];
    }
  }

  /** An `Exit` is the last thing sent. */
  lemma ExitIsLast(ms: seq<Message>, i: nat)
    requires P.Grammar(ms) && i < |ms| && ms[i].Exit?
    ensures i == |ms| - 1
  {
    assert ms[i] in ms;
    if P.Terminated(ms) {
      StreamedAt(ms, |ms| - 1);
    }
  }

  predicate EndedByExit(x: C.Session) {
    x.client.phase.Finished? && x.client.phase.cause.ByExit?
  }

  lemma ExitWasTaken(x: C.Session, sent: seq<Message>, got: nat)
    requires got <= |sent| && Shown(x, sent[..got]) && EndedByExit(x)
    ensures 0 < got && sent[got - 1] == Exit(x.client.phase.cause.exit) && Exit(x.client.phase.cause.exit) in sent
    ensures x.out == Gather(OutBytes, sent[..got]) && x.err == Gather(ErrBytes, sent[..got])
  {
  }

  lemma ShownWhole(x: C.Session, sent: seq<Message>, got: nat)
    requires got == |sent|
    requires x.out == Gather(OutBytes, sent[..got]) && x.err == Gather(ErrBytes, sent[..got])
    ensures x.out == Gather(OutBytes, sent) && x.err == Gather(ErrBytes, sent)
  {
    assert sent[..got] == sent;
  }

  lemma ReachedExit(json: Json, s: System)
    requires Faithful(json) && Reached(json, s) && EndedByExit(s.host.session)
    ensures var x, sent, got := s.host.session, s.s2c.sent, s.s2c.got;
            && 0 < got <= |sent| && sent[got - 1] == Exit(x.client.phase.cause.exit)
            && Exit(x.client.phase.cause.exit) in sent
            && x.out == Gather(OutBytes, sent[..got]) && x.err == Gather(ErrBytes, sent[..got])
  {
    ReachedShown(json, s);
    ExitWasTaken(s.host.session, s.s2c.sent, s.s2c.got);
  }

  lemma ReachedExitLast(json: Json, s: System)
    requires Faithful(json) && Reached(json, s)
    requires 0 < s.s2c.got <= |s.s2c.sent| && s.s2c.sent[s.s2c.got - 1].Exit?
    ensures s.s2c.got == |s.s2c.sent|
  {
    ReachedSaid(json, s);
    ExitIsLast(s.s2c.sent, s.s2c.got - 1);
  }

  lemma AfterExit(json: Json, s: System)
    requires Faithful(json) && Reached(json, s) && EndedByExit(s.host.session)
    ensures s.host.session.out == Gather(OutBytes, s.s2c.sent) && s.host.session.err == Gather(ErrBytes, s.s2c.sent)
    ensures Exit(s.host.session.client.phase.cause.exit) in s.s2c.sent
  {
    ReachedExit(json, s);
    ReachedExitLast(json, s);
    ShownWhole(s.host.session, s.s2c.sent, s.s2c.got);
  }

  lemma DrainedByExit(k: Kind, p: Pump, queue: seq<Message>, sent: seq<Message>, c: S.Conn, tr: seq<S.Effect>, child: Child, e: ExitMsg)
    requires Flow(k, p, queue, sent, c, tr) && Exits(child, c, tr, sent) && Exit(e) in sent
    ensures Gather(k, sent) == p.read && (p.faulted || p.pipe == [])
    ensures S.ChildStarted in tr ==> child.Reaped? && e == S.StatusExit(child.status)
  {
  }

  /** Output relay: at every moment what the terminal shows of a stream is a prefix of what the pump
      read from the child's pipe. When the client ends on an `Exit` frame it shows all of it, and,
      unless reading the pipe failed, all the child ever wrote there. */
  lemma OutputRelay(json: Json, k: Kind, s: System)
    requires Faithful(json) && Reached(json, s) && IsOutput(k)
    ensures ShownOf(k, s.host.session) <= PumpOf(k, s.server).read
    ensures EndedByExit(s.host.session) ==>
              && ShownOf(k, s.host.session) == PumpOf(k, s.server).read
              && (PumpOf(k, s.server).faulted || ShownOf(k, s.host.session) == PumpOf(k, s.server).written)
  {
    ReachedShown(json, s);
    ReachedFlow(json, k, s);
    GatherPrefix(k, s.s2c.sent, s.s2c.got);
    if EndedByExit(s.host.session) {
      ExitShowsAll(json, k, s);
    }
  }

  lemma ExitShowsAll(json: Json, k: Kind, s: System)
    requires Faithful(json) && Reached(json, s) && IsOutput(k) && EndedByExit(s.host.session)
    ensures ShownOf(k, s.host.session) == PumpOf(k, s.server).read
    ensures PumpOf(k, s.server).faulted || ShownOf(k, s.host.session) == PumpOf(k, s.server).written
  {
    ReachedFlow(json, k, s);
    AfterExit(json, s);
    var t := s.server.task;
    var p, e := PumpOf(k, s.server), s.host.session.client.phase.cause.exit;
    DrainedByExit(k, p, s.server.queue, s.s2c.sent, t.conn, t.trace, s.server.child, e);
    assert Piped(p) && p.read + [] == p.read;
  }

  /** Input relay: what the child has been given is a prefix of what the client read from the host,
      all of it when an empty `Stdin` frame is what closed its pipe; and the signals delivered are an
      in-order prefix of the signals the client relayed. */
  lemma InputRelay(json: Json, s: System)
    requires Faithful(json) && Reached(json, s)
    ensures s.server.childIn <= s.host.hostRead
    ensures s.server.eofClosed ==> s.server.childIn == s.host.hostRead && !s.host.live && !s.server.task.conn.stdinOpen
    ensures s.server.delivered <= Gather(Signals, s.host.session.sent)
  {
    ReachedInvariant(json, s);
    GatherPrefix(InBytes, s.c2s.sent, s.c2s.got);
    GatherPrefix(Signals, s.c2s.sent, s.c2s.got);
  }

  /** What a child's end is reported as. */
  function StatusCode(status: S.ExitStatus): int {
    match status
    case Exited(code) => code
    case Signaled(signal) => 128 + signal
    case Unknowable => 1
  }

  /** What the operating system can report: exit codes and signal numbers of one byte. */
  predicate Possible(status: S.ExitStatus) {
    match status
    case Exited(code) => 0 <= code < 256
    case Signaled(signal) => 0 < signal < 128
    case Unknowable => true
  }

  /** A client that ends on the `Exit` of a child that ran reports that child's own end: its code, or
      128 plus its signal. */
  lemma ExitIsFaithful(json: Json, s: System, command: string)
    requires Faithful(json) && Reached(json, s)
    requires EndedByExit(s.host.session) && S.ChildStarted in s.server.task.trace
    ensures s.server.child.Reaped?
    ensures Possible(s.server.child.status) ==>
              C.Reported(s.host.session.client.phase.cause, command) == StatusCode(s.server.child.status)
  {
    ReachedFlow(json, OutBytes, s);
    AfterExit(json, s);
    var t, e := s.server.task, s.host.session.client.phase.cause.exit;
    DrainedByExit(OutBytes, s.server.out, s.server.queue, s.s2c.sent, t.conn, t.trace, s.server.child, e);
    CodesAgree(s.server.child.status, command);
  }

  lemma CodesAgree(status: S.ExitStatus, command: string)
    ensures Possible(status) ==> C.Reported(C.ByExit(S.StatusExit(status)), command) == StatusCode(status)
  {
  }

  function AsArrivals(said: seq<Message>): seq<C.Arrival> {
    seq(|said|, k requires 0 <= k < |said| => C.Arrived(Ok(said[k])))
  }

  /** Whatever the server's task goes through after a launch that failed, a client that takes the frames it
      said shows nothing and ends with 127 for a command that is not there, 126 for one that may not be
      run, each exactly if directory and environment passed, and with 1 otherwise. */
  lemma FailedLaunchCodes(q: Request, isDir: bool, spawn: S.SpawnResult, rest: seq<S.Input>, command: string)
    requires S.LaunchReply(q, isDir, spawn).Some?
    ensures var run := S.Play(S.OPENED, [S.FrameIn(Ok(Run(q))), S.Launch(isDir, spawn)] + rest);
            var d := C.Decide(AsArrivals(S.Emits(run.trace)));
            var launched := isDir && forall entry <- q.env :: '=' in entry;
            && d.cause.Some? && d.out == [] && d.err == []
            && C.Reported(d.cause.value, command) ==
                 if launched && spawn.NotFound? then 127
                 else if launched && spawn.PermissionDenied? then 126
                 else 1
  {
    P.RefusedRequest(q, isDir, spawn, rest);
    ReplyCode(q, isDir, spawn, command);
    OneVerdict(S.LaunchReply(q, isDir, spawn).value);
  }

  lemma OneVerdict(m: Message)
    requires C.Verdict(C.Arrived(Ok(m))).Some?
    ensures C.Decide(AsArrivals([m])) == C.Decision(C.Verdict(C.Arrived(Ok(m))), [], [])
  {
    assert AsArrivals([m]) == [C.Arrived(Ok(m))];
  }

  lemma ReplyCode(q: Request, isDir: bool, spawn: S.SpawnResult, command: string)
    requires S.LaunchReply(q, isDir, spawn).Some?
    ensures var verdict := C.Verdict(C.Arrived(Ok(S.LaunchReply(q, isDir, spawn).value)));
            var launched := isDir && forall entry <- q.env :: '=' in entry;
            && verdict.Some?
            && C.Reported(verdict.value, command) ==
                 if launched && spawn.NotFound? then 127
                 else if launched && spawn.PermissionDenied? then 126
                 else 1
  {
    P.GoodEnv(q.env);
  }
}
