/** What a connection is for does happen: for every exchange of output, input and signals, and for every way
    the child can end, there is a run without a failure in which all of it arrives and the client reports the
    child's end. A run is put together from legs, each from rest to rest. */
module ExecRuns {
  import opened Wrappers
  import opened Protocol
  import Framing
  import L = Link
  import S = ServerConnection
  import P = ServerProtocol
  import C = ClientSession
  import opened ExecConnection

  /** Nothing under way in this direction. */
  predicate Clear(l: L.Link) {
    l.wbuf == [] && l.flight == [] && l.rbuf == [] && !l.broken && !l.rejected
  }

  predicate Resting(p: Pump) {
    p.pipe == [] && !p.closed && p.held == [] && p.live
  }

  /** Both ends wait for what comes next. */
  predicate Idle(s: System) {
    && s.serverUp && s.clientUp && Clear(s.s2c) && Clear(s.c2s)
    && s.server.task.conn.phase.Bridging? && s.server.task.conn.clientWritesOpen && s.server.task.conn.stoppingOpen
    && s.server.child.Alive? && s.server.queue == [] && Resting(s.server.out) && Resting(s.server.err)
    && s.server.feeding == []
    && s.host.session.client.phase.Looping? && s.host.session.client.sigintOpen && s.host.session.client.sigtermOpen
    && s.host.held == [] && s.host.queue == []
    && s.host.live == s.host.session.client.stdinOpen == s.server.task.conn.stdinOpen
  }

  // --------------------------------------------------------------- the wire

  /** One message over a clear link: written out, delivered, decoded. */
  lemma Passes(json: Json, l: L.Link, m: Message)
    requires Faithful(json) && Clear(l) && L.Wire(json, m).Some?
    ensures var p := L.Push(json, l, m);
            && !p.rejected && !p.broken
            && var q := L.Flush(p, |p.wbuf|);
               && q.wbuf == [] && !q.rejected && |q.flight| == |p.wbuf|
               && var r := L.Deliver(q, |q.flight|);
                  && r.flight == [] && ScanFrame(r.rbuf).Got? && FromFrame(json, ScanFrame(r.rbuf).frame) == Ok(m)
                  && Clear(L.Pop(r))
  {
    var f := L.Wire(json, m).value;
    var bytes := EncodeFrame(f);
    assert [] + bytes == bytes && bytes[..|bytes|] == bytes && bytes[|bytes|..] == [];
    assert bytes + [] == bytes;
    Framing.GotIffEncoding(bytes, f, []);
    MessageRoundTrip(json, m);
  }

  function Sent(json: Json, l: L.Link, m: Message): L.Link {
    var p := L.Push(json, l, m);
    L.Flush(p, |p.wbuf|)
  }

  function Arrived(json: Json, l: L.Link, m: Message): L.Link {
    var q := Sent(json, l, m);
    var r := L.Deliver(q, |q.flight|);
    if ScanFrame(r.rbuf).Got? then L.Pop(r) else r
  }

  function Size(json: Json, l: L.Link, m: Message): nat {
    |L.Push(json, l, m).wbuf|
  }

  // ------------------------------------------------------------------- runs

  lemma {:induction false} Then(json: Json, s: System, a: seq<Step>, b: seq<Step>)
    ensures Execute(json, s, a + b) == Execute(json, Execute(json, s, a), b)
    decreases |a|
  {
    if a == [] {
      assert a + b == b;
    } else {
      assert (a + b)[1..] == a[1..] + b;
      Then(json, Next(json, s, a[0]), a[1..], b);
    }
  }

  lemma One(json: Json, s: System, a: Step)
    ensures Execute(json, s, [a]) == Next(json, s, a)
  {
    assert [a][1..] == [];
  }

  lemma Two(json: Json, s: System, a: Step, b: Step)
    ensures Execute(json, s, [a, b]) == Next(json, Next(json, s, a), b)
  {
    assert [a, b][1..] == [b];
    One(json, Next(json, s, a), b);
  }

  lemma Three(json: Json, s: System, a: Step, b: Step, c: Step)
    ensures Execute(json, s, [a, b, c]) == Next(json, Next(json, Next(json, s, a), b), c)
  {
    assert [a, b, c][1..] == [b, c];
    Two(json, Next(json, s, a), b, c);
  }

  // ----------------------------------------------------------------- output

  function Said(stdout: bool, bytes: seq<byte>): Message {
    if stdout then Stdout(bytes) else Stderr(bytes)
  }

  function Of(stdout: bool, p: PumpStep): Step {
    if stdout then OutPump(p) else ErrPump(p)
  }

  function WithPump(s: System, stdout: bool, p: Pump, queue: seq<Message>): System {
    if stdout then s.(server := s.server.(out := p, queue := queue)) else s.(server := s.server.(err := p, queue := queue))
  }

  function PumpOf(s: System, stdout: bool): Pump {
    if stdout then s.server.out else s.server.err
  }

  lemma PumpMoves(p: Pump, stdout: bool, b: seq<byte>)
    requires Resting(p) && 0 < |b| <= BUFFER
    ensures var one := MovePump(p, [], true, stdout, ChildWrites(b));
            var two := MovePump(one.0, one.1, true, stdout, ReadChunk(|b|));
            MovePump(two.0, two.1, true, stdout, QueueChunk) ==
              (p.(read := p.read + b, written := p.written + b), [Said(stdout, b)])
  {
    assert p.pipe + b == b && b[..|b|] == b && b[|b|..] == [];
    var one := MovePump(p, [], true, stdout, ChildWrites(b));
    assert one == (p.(pipe := b, written := p.written + b), []);
    var two := MovePump(one.0, one.1, true, stdout, ReadChunk(|b|));
    assert two == (p.(held := b, read := p.read + b, written := p.written + b), []);
    assert [] + [Said(stdout, b)] == [Said(stdout, b)];
  }

  lemma ChildSpeaks(json: Json, s: System, stdout: bool, b: seq<byte>)
    requires s.serverUp && s.server.task.conn.phase.Bridging? && !s.server.child.NotStarted?
    requires s.server.queue == [] && Resting(PumpOf(s, stdout)) && 0 < |b| <= BUFFER
    ensures var p := PumpOf(s, stdout);
            Execute(json, s, [Of(stdout, ChildWrites(b)), Of(stdout, ReadChunk(|b|)), Of(stdout, QueueChunk)]) ==
              WithPump(s, stdout, p.(read := p.read + b, written := p.written + b), [Said(stdout, b)])
  {
    PumpMoves(PumpOf(s, stdout), stdout, b);
    Three(json, s, Of(stdout, ChildWrites(b)), Of(stdout, ReadChunk(|b|)), Of(stdout, QueueChunk));
  }

  function Emitted(s: System, m: Message, phase: S.Phase): S.Task {
    S.Task(s.server.task.conn.(phase := phase), s.server.task.trace + [S.Emit(m)])
  }

  /** The write buffer goes out and the send returns; */
  lemma ToClientSent(json: Json, s: System, l: L.Link, m: Message)
    requires Faithful(json) && Clear(l) && L.Wire(json, m).Some? && s.serverUp && s.s2c == L.Push(json, l, m)
    ensures var t := Next(json, s, ToClient(Flush(Size(json, l, m))));
            t == s.(s2c := Sent(json, l, m)) && SendMayReturn(t.s2c, true)
  {
    Passes(json, l, m);
  }

  /** what was sent is delivered whole, and decodes. */
  lemma ToClientDelivered(json: Json, s: System, l: L.Link, m: Message)
    requires Faithful(json) && Clear(l) && L.Wire(json, m).Some? && s.s2c == Sent(json, l, m)
    ensures var t := Next(json, s, ToClient(Deliver(Size(json, l, m))));
            && t == s.(s2c := L.Deliver(s.s2c, |s.s2c.flight|))
            && ScanFrame(t.s2c.rbuf).Got? && FromFrame(json, ScanFrame(t.s2c.rbuf).frame) == Ok(m)
            && L.Pop(t.s2c) == Arrived(json, l, m) && Clear(L.Pop(t.s2c))
  {
    Passes(json, l, m);
  }

  lemma TakesOutput(json: Json, s: System, m: Message)
    requires s.serverUp && s.server.task.conn.phase.Bridging? && s.server.queue == [m]
    ensures Next(json, s, OnServer(TakeOutput)) ==
              s.(server := s.server.(queue := [], task := Emitted(s, m, S.Relaying)), s2c := L.Push(json, s.s2c, m))
  {
  }

  lemma SendReturned(json: Json, s: System)
    requires s.serverUp && s.server.task.conn.phase.Relaying? && SendMayReturn(s.s2c, true)
    ensures Next(json, s, OnServer(SendReturns(true))) ==
              s.(server := s.server.(task := s.server.task.(conn := s.server.task.conn.(phase := S.Bridging))))
  {
  }

  lemma Relays(json: Json, s: System, m: Message)
    requires Faithful(json) && L.Wire(json, m).Some? && Clear(s.s2c)
    requires s.serverUp && s.server.task.conn.phase.Bridging? && s.server.queue == [m]
    ensures Execute(json, s, [OnServer(TakeOutput), ToClient(Flush(Size(json, s.s2c, m))), OnServer(SendReturns(true))]) ==
              s.(server := s.server.(queue := [], task := Emitted(s, m, S.Bridging)), s2c := Sent(json, s.s2c, m))
  {
    Three(json, s, OnServer(TakeOutput), ToClient(Flush(Size(json, s.s2c, m))), OnServer(SendReturns(true)));
    TakesOutput(json, s, m);
    var t := Next(json, s, OnServer(TakeOutput));
    ToClientSent(json, t, s.s2c, m);
    SendReturned(json, Next(json, t, ToClient(Flush(Size(json, s.s2c, m)))));
  }

  function Showed(x: C.Session, m: Message): C.Session {
    if m.Stdout? then x.(out := x.out + m.bytes) else if m.Stderr? then x.(err := x.err + m.bytes) else x
  }

  lemma GetsFrame(json: Json, s: System, m: Message)
    requires s.clientUp && s.host.session.client.phase.Looping? && (m.Stdout? || m.Stderr?)
    requires ScanFrame(s.s2c.rbuf).Got? && FromFrame(json, ScanFrame(s.s2c.rbuf).frame) == Ok(m)
    ensures Next(json, s, OnClient(GetFrame(None))) ==
              s.(s2c := L.Pop(s.s2c), host := s.host.(session := Showed(s.host.session, m)))
  {
  }

  lemma Shows(json: Json, s: System, l: L.Link, m: Message)
    requires Faithful(json) && Clear(l) && L.Wire(json, m).Some? && s.s2c == Sent(json, l, m) && (m.Stdout? || m.Stderr?)
    requires s.clientUp && s.host.session.client.phase.Looping?
    ensures Execute(json, s, [ToClient(Deliver(Size(json, l, m))), OnClient(GetFrame(None))]) ==
              s.(s2c := Arrived(json, l, m), host := s.host.(session := Showed(s.host.session, m)))
  {
    Two(json, s, ToClient(Deliver(Size(json, l, m))), OnClient(GetFrame(None)));
    ToClientDelivered(json, s, l, m);
    GetsFrame(json, Next(json, s, ToClient(Deliver(Size(json, l, m)))), m);
  }

  lemma OutputFits(json: Json, stdout: bool, b: seq<byte>)
    requires |b| <= BUFFER
    ensures L.Wire(json, Said(stdout, b)).Some?
  {
  }

  /** What a leg leaves for the next: both ends at rest, and what arrived so far. */
  predicate Leads(s: System, t: System, out: seq<byte>, err: seq<byte>, fed: seq<byte>, signals: seq<byte>) {
    && Idle(t)
    && t.host.session.out == s.host.session.out + out
    && t.host.session.err == s.host.session.err + err
    && t.server.childIn == s.server.childIn + fed
    && t.server.delivered == s.server.delivered + signals
  }

  /** The child writes a chunk, and the client shows it. */
  lemma OutputLeg(json: Json, s: System, stdout: bool, b: seq<byte>) returns (steps: seq<Step>)
    requires Faithful(json) && Idle(s) && 0 < |b| <= BUFFER
    ensures var t := Execute(json, s, steps);
            && Leads(s, t, if stdout then b else [], if stdout then [] else b, [], [])
            && t.server.task.conn.stdinOpen == s.server.task.conn.stdinOpen && t.server.eofClosed == s.server.eofClosed
  {
    var m := Said(stdout, b);
    OutputFits(json, stdout, b);
    var one := [Of(stdout, ChildWrites(b)), Of(stdout, ReadChunk(|b|)), Of(stdout, QueueChunk)];
    var two := [OnServer(TakeOutput), ToClient(Flush(Size(json, s.s2c, m))), OnServer(SendReturns(true))];
    var three := [ToClient(Deliver(Size(json, s.s2c, m))), OnClient(GetFrame(None))];
    ChildSpeaks(json, s, stdout, b);
    var t := Execute(json, s, one);
    Relays(json, t, m);
    var u := Execute(json, t, two);
    Shows(json, u, s.s2c, m);
    Passes(json, s.s2c, m);
    Then(json, s, one, two);
    Then(json, s, one + two, three);
    steps := one + two + three;
  }

  // ------------------------------------------------------ stdin and signals

  lemma ToServerSent(json: Json, s: System, l: L.Link, m: Message)
    requires Faithful(json) && Clear(l) && L.Wire(json, m).Some? && s.clientUp && s.c2s == L.Push(json, l, m)
    ensures var t := Next(json, s, ToServer(Flush(Size(json, l, m))));
            t == s.(c2s := Sent(json, l, m)) && SendMayReturn(t.c2s, true)
  {
    Passes(json, l, m);
  }

  lemma ToServerDelivered(json: Json, s: System, l: L.Link, m: Message)
    requires Faithful(json) && Clear(l) && L.Wire(json, m).Some? && s.c2s == Sent(json, l, m)
    ensures var t := Next(json, s, ToServer(Deliver(Size(json, l, m))));
            && t == s.(c2s := L.Deliver(s.c2s, |s.c2s.flight|))
            && ScanFrame(t.c2s.rbuf).Got? && FromFrame(json, ScanFrame(t.c2s.rbuf).frame) == Ok(m)
            && L.Pop(t.c2s) == Arrived(json, l, m) && Clear(L.Pop(t.c2s))
  {
    Passes(json, l, m);
  }

  /** The session takes an event that calls for a message. */
  function Calling(x: C.Session, m: Message, phase: C.Phase, stdinOpen: bool): C.Session {
    x.(client := x.client.(phase := phase, stdinOpen := stdinOpen), sent := x.sent + [m])
  }

  lemma SendsBack(json: Json, s: System, l: L.Link, m: Message)
    requires Faithful(json) && Clear(l) && L.Wire(json, m).Some? && s.c2s == L.Push(json, l, m)
    requires s.clientUp && s.host.session.client.phase.Sending?
    ensures Execute(json, s, [ToServer(Flush(Size(json, l, m))), OnClient(SendBack(true))]) ==
              s.(c2s := Sent(json, l, m),
                 host := s.host.(session := s.host.session.(client := s.host.session.client.(phase := C.Looping))))
  {
    Two(json, s, ToServer(Flush(Size(json, l, m))), OnClient(SendBack(true)));
    ToServerSent(json, s, l, m);
    SentBack(json, Next(json, s, ToServer(Flush(Size(json, l, m)))));
  }

  lemma SentBack(json: Json, s: System)
    requires s.clientUp && s.host.session.client.phase.Sending? && SendMayReturn(s.c2s, true)
    ensures Next(json, s, OnClient(SendBack(true))) ==
              s.(host := s.host.(session := s.host.session.(client := s.host.session.client.(phase := C.Looping))))
  {
  }

  lemma HostSpeaks(json: Json, s: System, b: seq<byte>)
    requires Idle(s) && s.host.live && 0 < |b| <= BUFFER
    ensures Execute(json, s, [StdinPump(HostChunk(b)), StdinPump(HostQueue)]) ==
              s.(host := s.host.(hostRead := s.host.hostRead + b, queue := [Some(b)]))
  {
    Two(json, s, StdinPump(HostChunk(b)), StdinPump(HostQueue));
    assert [] + [Some(b)] == [Some(b)];
    assert s.host.(held := []) == s.host;
  }

  lemma TakesStdin(json: Json, s: System, b: seq<byte>)
    requires s.clientUp && s.host.session.client.phase.Looping? && s.host.session.client.stdinOpen && s.host.queue == [Some(b)]
    ensures Next(json, s, OnClient(TakeStdin)) ==
              s.(host := s.host.(queue := [], session := Calling(s.host.session, Stdin(b), C.Sending(true), true)),
                 c2s := L.Push(json, s.c2s, Stdin(b)))
  {
  }

  lemma TakesEnd(json: Json, s: System)
    requires Idle(s) && s.host.live
    ensures Execute(json, s, [StdinPump(HostEof), OnClient(TakeStdinEnd)]) ==
              s.(host := s.host.(live := false, session := Calling(s.host.session, Stdin([]), C.Sending(false), false)),
                 c2s := L.Push(json, s.c2s, Stdin([])))
  {
    Two(json, s, StdinPump(HostEof), OnClient(TakeStdinEnd));
    assert s.host.queue + [None] == [None] && (s.host.queue + [None])[1..] == [];
  }

  lemma Raises(json: Json, s: System, n: byte)
    requires Idle(s) && (n == SIGINT || n == SIGTERM)
    ensures Next(json, s, OnClient(Raise(n))) ==
              s.(host := s.host.(session := Calling(s.host.session, Signal(n), C.Sending(true), s.host.session.client.stdinOpen)),
                 c2s := L.Push(json, s.c2s, Signal(n)))
  {
  }

  // how the bridge takes each of the three

  lemma TakesChunk(json: Json, s: System, b: seq<byte>)
    requires s.serverUp && s.server.task.conn.phase.Bridging? && s.server.task.conn.clientWritesOpen && s.server.task.conn.stdinOpen
    requires ScanFrame(s.c2s.rbuf).Got? && FromFrame(json, ScanFrame(s.c2s.rbuf).frame) == Ok(Stdin(b)) && b != []
    ensures var t := Next(json, s, OnServer(TakeFrame));
            t == s.(c2s := L.Pop(s.c2s),
                    server := s.server.(feeding := b, task := S.Task(s.server.task.conn.(phase := S.Feeding), s.server.task.trace + [S.Feed(b)])))
  {
  }

  lemma Feeds(json: Json, s: System)
    requires s.serverUp && s.server.task.conn.phase.Feeding?
    ensures Execute(json, s, [OnServer(FeedSome(|s.server.feeding|)), OnServer(FeedReturns(true))]) ==
              s.(server := s.server.(feeding := [], childIn := s.server.childIn + s.server.feeding,
                                     task := s.server.task.(conn := s.server.task.conn.(phase := S.Bridging))))
  {
    var b := s.server.feeding;
    assert b[..|b|] == b && b[|b|..] == [];
    Two(json, s, OnServer(FeedSome(|b|)), OnServer(FeedReturns(true)));
  }

  lemma TakesEmpty(json: Json, s: System)
    requires s.serverUp && s.server.task.conn.phase.Bridging? && s.server.task.conn.clientWritesOpen && s.server.task.conn.stdinOpen
    requires ScanFrame(s.c2s.rbuf).Got? && FromFrame(json, ScanFrame(s.c2s.rbuf).frame) == Ok(Stdin([]))
    ensures Next(json, s, OnServer(TakeFrame)) ==
              s.(c2s := L.Pop(s.c2s),
                 server := s.server.(feeding := [], eofClosed := true,
                                     task := S.Task(s.server.task.conn.(stdinOpen := false), s.server.task.trace + [S.DropStdin])))
  {
  }

  lemma TakesSignal(json: Json, s: System, n: byte)
    requires s.serverUp && s.server.task.conn.phase.Bridging? && s.server.task.conn.clientWritesOpen
    requires ScanFrame(s.c2s.rbuf).Got? && FromFrame(json, ScanFrame(s.c2s.rbuf).frame) == Ok(Signal(n))
    ensures Next(json, s, OnServer(TakeFrame)) ==
              s.(c2s := L.Pop(s.c2s),
                 server := s.server.(delivered := s.server.delivered + [n],
                                     task := s.server.task.(trace := s.server.task.trace + [S.Kill(n, S.Relayed)])))
  {
  }

  /** From a message pushed to the session looping again with it delivered at the server. */
  function Called(json: Json, s: System, l: L.Link, m: Message): System {
    s.(c2s := L.Deliver(Sent(json, l, m), |Sent(json, l, m).flight|),
       host := s.host.(session := s.host.session.(client := s.host.session.client.(phase := C.Looping))))
  }

  lemma Carries(json: Json, s: System, l: L.Link, m: Message)
    requires Faithful(json) && Clear(l) && L.Wire(json, m).Some? && s.c2s == L.Push(json, l, m)
    requires s.clientUp && s.host.session.client.phase.Sending?
    ensures var t := Called(json, s, l, m);
            && Execute(json, s, [ToServer(Flush(Size(json, l, m))), OnClient(SendBack(true)), ToServer(Deliver(Size(json, l, m)))]) == t
            && ScanFrame(t.c2s.rbuf).Got? && FromFrame(json, ScanFrame(t.c2s.rbuf).frame) == Ok(m) && Clear(L.Pop(t.c2s))
  {
    var front, last := [ToServer(Flush(Size(json, l, m))), OnClient(SendBack(true))], ToServer(Deliver(Size(json, l, m)));
    SendsBack(json, s, l, m);
    Then(json, s, front, [last]);
    assert front + [last] == [ToServer(Flush(Size(json, l, m))), OnClient(SendBack(true)), last];
    One(json, Execute(json, s, front), last);
    ToServerDelivered(json, Execute(json, s, front), l, m);
  }

  function Carry(json: Json, l: L.Link, m: Message): seq<Step> {
    [ToServer(Flush(Size(json, l, m))), OnClient(SendBack(true)), ToServer(Deliver(Size(json, l, m)))]
  }

  lemma FourParts(json: Json, s: System, a: seq<Step>, b: seq<Step>, c: seq<Step>, d: seq<Step>)
    ensures Execute(json, s, a + b + c + d) ==
              Execute(json, Execute(json, Execute(json, Execute(json, s, a), b), c), d)
  {
    Then(json, s, a, b);
    Then(json, s, a + b, c);
    Then(json, s, a + b + c, d);
  }

  /** Host stdin brings a chunk, and it is written to the child. */
  lemma StdinLeg(json: Json, s: System, b: seq<byte>) returns (steps: seq<Step>)
    requires Faithful(json) && Idle(s) && s.host.live && 0 < |b| <= BUFFER
    ensures var t := Execute(json, s, steps);
            && Leads(s, t, [], [], b, [])
            && t.host.live && t.server.eofClosed == s.server.eofClosed
  {
    var m := Stdin(b);
    var one := [StdinPump(HostChunk(b)), StdinPump(HostQueue)];
    HostSpeaks(json, s, b);
    var t := Execute(json, s, one);
    TakesStdin(json, t, b);
    One(json, t, OnClient(TakeStdin));
    var u := Next(json, t, OnClient(TakeStdin));
    Carries(json, u, s.c2s, m);
    var v := Called(json, u, s.c2s, m);
    TakesChunk(json, v, b);
    var w := Next(json, v, OnServer(TakeFrame));
    var four := [OnServer(FeedSome(|b|)), OnServer(FeedReturns(true))];
    Feeds(json, w);
    One(json, v, OnServer(TakeFrame));
    FourParts(json, s, one, [OnClient(TakeStdin)], Carry(json, s.c2s, m), [OnServer(TakeFrame)]);
    steps := one + [OnClient(TakeStdin)] + Carry(json, s.c2s, m) + [OnServer(TakeFrame)] + four;
    Then(json, s, one + [OnClient(TakeStdin)] + Carry(json, s.c2s, m) + [OnServer(TakeFrame)], four);
  }

  /** Host stdin ends, and the child's pipe is closed. */
  lemma EndLeg(json: Json, s: System) returns (steps: seq<Step>)
    requires Faithful(json) && Idle(s) && s.host.live
    ensures var t := Execute(json, s, steps);
            && Leads(s, t, [], [], [], [])
            && !t.host.live && t.server.eofClosed
  {
    var one := [StdinPump(HostEof), OnClient(TakeStdinEnd)];
    TakesEnd(json, s);
    var u := Execute(json, s, one);
    Carries(json, u, s.c2s, Stdin([]));
    var v := Called(json, u, s.c2s, Stdin([]));
    TakesEmpty(json, v);
    One(json, v, OnServer(TakeFrame));
    steps := one + Carry(json, s.c2s, Stdin([])) + [OnServer(TakeFrame)];
    Then(json, s, one, Carry(json, s.c2s, Stdin([])));
    Then(json, s, one + Carry(json, s.c2s, Stdin([])), [OnServer(TakeFrame)]);
  }

  lemma SignalFits(json: Json, n: byte)
    requires Faithful(json)
    ensures L.Wire(json, Signal(n)).Some?
  {
    assert json.enc(Signal(n)).Some?;
  }

  /** A signal is raised at the client, and delivered to the child. */
  lemma SignalLeg(json: Json, s: System, n: byte) returns (steps: seq<Step>)
    requires Faithful(json) && Idle(s) && (n == SIGINT || n == SIGTERM)
    ensures var t := Execute(json, s, steps);
            && Leads(s, t, [], [], [], [n])
            && t.host.live == s.host.live && t.server.eofClosed == s.server.eofClosed
  {
    SignalFits(json, n);
    Raises(json, s, n);
    One(json, s, OnClient(Raise(n)));
    var u := Next(json, s, OnClient(Raise(n)));
    Carries(json, u, s.c2s, Signal(n));
    var v := Called(json, u, s.c2s, Signal(n));
    TakesSignal(json, v, n);
    One(json, v, OnServer(TakeFrame));
    steps := [OnClient(Raise(n))] + Carry(json, s.c2s, Signal(n)) + [OnServer(TakeFrame)];
    Then(json, s, [OnClient(Raise(n))], Carry(json, s.c2s, Signal(n)));
    Then(json, s, [OnClient(Raise(n))] + Carry(json, s.c2s, Signal(n)), [OnServer(TakeFrame)]);
  }

  // ------------------------------------------------------------ begin and end

  lemma RequestGoes(json: Json, request: Request)
    requires Faithful(json) && L.Wire(json, Run(request)).Some?
    ensures var s, m := Begin(json, request), Run(request);
            Execute(json, s, [ToServer(Flush(Size(json, L.FRESH, m))), OnClient(SendBack(true)), OnClient(Install(true))]) ==
              s.(c2s := Sent(json, L.FRESH, m),
                 host := s.host.(session := s.host.session.(client := s.host.session.client.(phase := C.Looping))))
  {
    var s, m := Begin(json, request), Run(request);
    ToServerSent(json, s, L.FRESH, m);
    Three(json, s, ToServer(Flush(Size(json, L.FRESH, m))), OnClient(SendBack(true)), OnClient(Install(true)));
  }

  lemma RequestIsLaunched(json: Json, s: System, q: Request)
    requires s.serverUp && s.server.task == S.OPENED && S.FirstBadEntry(q.env) == None
    requires ScanFrame(s.c2s.rbuf).Got? && FromFrame(json, ScanFrame(s.c2s.rbuf).frame) == Ok(Run(q))
    ensures var t := Execute(json, s, [OnServer(TakeFrame), OnServer(Launch(true, S.Spawned))]);
            t == s.(c2s := L.Pop(s.c2s),
                    server := s.server.(task := S.Task(S.Conn(S.Bridging, q.command, true, true, true), [S.Accepted(q), S.ChildStarted]),
                                        child := Alive,
                                        out := s.server.out.(live := true), err := s.server.err.(live := true)))
  {
    Two(json, s, OnServer(TakeFrame), OnServer(Launch(true, S.Spawned)));
    RequestIsTaken(json, s, q);
    RequestIsSpawned(json, Next(json, s, OnServer(TakeFrame)), q);
  }

  lemma RequestIsTaken(json: Json, s: System, q: Request)
    requires s.serverUp && s.server.task == S.OPENED
    requires ScanFrame(s.c2s.rbuf).Got? && FromFrame(json, ScanFrame(s.c2s.rbuf).frame) == Ok(Run(q))
    ensures Next(json, s, OnServer(TakeFrame)) ==
              s.(c2s := L.Pop(s.c2s),
                 server := s.server.(task := S.Task(S.START.(phase := S.Launching(q), command := q.command), [S.Accepted(q)])))
  {
    assert [] + [S.Accepted(q)] == [S.Accepted(q)];
  }

  lemma RequestIsSpawned(json: Json, s: System, q: Request)
    requires s.serverUp && S.FirstBadEntry(q.env) == None
    requires s.server.task == S.Task(S.START.(phase := S.Launching(q), command := q.command), [S.Accepted(q)])
    ensures Next(json, s, OnServer(Launch(true, S.Spawned))) ==
              s.(server := s.server.(task := S.Task(S.Conn(S.Bridging, q.command, true, true, true), [S.Accepted(q), S.ChildStarted]),
                                     child := Alive,
                                     out := s.server.out.(live := true), err := s.server.err.(live := true)))
  {
    assert [S.Accepted(q)] + [S.ChildStarted] == [S.Accepted(q), S.ChildStarted];
  }

  /** The request is sent and launched. */
  lemma OpeningLeg(json: Json, request: Request) returns (steps: seq<Step>)
    requires Faithful(json) && L.Wire(json, Run(request)).Some? && S.FirstBadEntry(request.env) == None
    ensures var t := Execute(json, Begin(json, request), steps);
            && Idle(t) && t.host.live && !t.server.eofClosed
            && t.host.session.out == [] && t.host.session.err == [] && t.server.childIn == [] && t.server.delivered == []
  {
    var s, m := Begin(json, request), Run(request);
    var one := [ToServer(Flush(Size(json, L.FRESH, m))), OnClient(SendBack(true)), OnClient(Install(true))];
    var two := ToServer(Deliver(Size(json, L.FRESH, m)));
    var three := [OnServer(TakeFrame), OnServer(Launch(true, S.Spawned))];
    RequestGoes(json, request);
    var t := Execute(json, s, one);
    ToServerDelivered(json, t, L.FRESH, m);
    One(json, t, two);
    var u := Next(json, t, two);
    RequestIsLaunched(json, u, request);
    Then(json, s, one, [two]);
    Then(json, s, one + [two], three);
    steps := one + [two] + three;
  }

  function Over(p: Pump): Pump {
    p.(closed := true, live := false)
  }

  lemma PumpEnds(json: Json, s: System, stdout: bool)
    requires s.serverUp && !s.server.child.NotStarted? && Resting(PumpOf(s, stdout))
    ensures Execute(json, s, [Of(stdout, PipeCloses), Of(stdout, ReadEof)]) == WithPump(s, stdout, Over(PumpOf(s, stdout)), s.server.queue)
  {
    Two(json, s, Of(stdout, PipeCloses), Of(stdout, ReadEof));
  }

  lemma ChildEnds(json: Json, s: System, status: S.ExitStatus)
    requires Idle(s)
    ensures Execute(json, s, [ChildExits(status), OutPump(PipeCloses), OutPump(ReadEof), ErrPump(PipeCloses), ErrPump(ReadEof)]) ==
              s.(server := s.server.(child := Ended(status), out := Over(s.server.out), err := Over(s.server.err)))
  {
    var a, b, c := [ChildExits(status)], [OutPump(PipeCloses), OutPump(ReadEof)], [ErrPump(PipeCloses), ErrPump(ReadEof)];
    One(json, s, ChildExits(status));
    var t := Next(json, s, ChildExits(status));
    PumpEnds(json, t, true);
    var u := WithPump(t, true, Over(t.server.out), t.server.queue);
    PumpEnds(json, u, false);
    Then(json, s, a, b);
    Then(json, s, a + b, c);
    assert a + b + c == [ChildExits(status), OutPump(PipeCloses), OutPump(ReadEof), ErrPump(PipeCloses), ErrPump(ReadEof)];
  }

  /** The status is reported: low byte of the code, or of the signal, or neither. */
  function ReportOf(status: S.ExitStatus): ExitMsg {
    match status
    case Exited(code) => ExitMsg(Some((code % 256) as byte), None)
    case Signaled(n) => ExitMsg(None, Some((n % 256) as byte))
    case Unknowable => ExitMsg(None, None)
  }

  function EndTask(s: System, m: Message, phase: S.Phase): S.Task {
    S.Task(s.server.task.conn.(phase := phase, stdinOpen := false), s.server.task.trace + [S.BridgeOver(true)] + [S.Reap] + [S.Emit(m)])
  }

  lemma WaitIsReported(json: Json, s: System, status: S.ExitStatus)
    requires s.serverUp && s.server.task.conn.phase.Bridging? && s.server.queue == [] && s.server.child == Ended(status)
    requires !s.server.out.live && !s.server.err.live
    ensures var m := Exit(ReportOf(status));
            Execute(json, s, [OnServer(OutputsClosed), OnServer(WaitReturns), OnServer(Continue)]) ==
              s.(server := s.server.(child := Reaped(status), task := EndTask(s, m, S.Closing)), s2c := L.Push(json, s.s2c, m))
  {
    Three(json, s, OnServer(OutputsClosed), OnServer(WaitReturns), OnServer(Continue));
    Closes(json, s);
    var t := Next(json, s, OnServer(OutputsClosed));
    Waits(json, t, status);
    Continues(json, Next(json, t, OnServer(WaitReturns)), Exit(ReportOf(status)));
  }

  lemma Closes(json: Json, s: System)
    requires s.serverUp && s.server.task.conn.phase.Bridging? && s.server.queue == [] && !s.server.out.live && !s.server.err.live
    ensures Next(json, s, OnServer(OutputsClosed)) ==
              s.(server := s.server.(task := S.Task(s.server.task.conn.(phase := S.AwaitingChild, stdinOpen := false),
                                                    s.server.task.trace + [S.BridgeOver(true)])))
  {
  }

  lemma Waits(json: Json, s: System, status: S.ExitStatus)
    requires s.serverUp && s.server.task.conn.phase.AwaitingChild? && s.server.child == Ended(status)
    ensures Next(json, s, OnServer(WaitReturns)) ==
              s.(server := s.server.(child := Reaped(status),
                                     task := S.Task(s.server.task.conn.(phase := S.Reporting(Exit(ReportOf(status)))),
                                                    s.server.task.trace + [S.Reap])))
  {
  }

  lemma Continues(json: Json, s: System, m: Message)
    requires s.serverUp && s.server.task.conn.phase == S.Reporting(m)
    ensures Next(json, s, OnServer(Continue)) ==
              s.(server := s.server.(task := Emitted(s, m, S.Closing)), s2c := L.Push(json, s.s2c, m))
  {
  }

  lemma ReportGoes(json: Json, s: System, l: L.Link, e: ExitMsg)
    requires Faithful(json) && Clear(l) && L.Wire(json, Exit(e)).Some? && s.s2c == L.Push(json, l, Exit(e))
    requires s.serverUp && s.clientUp && s.server.task.conn.phase.Closing? && s.host.session.client.phase.Looping?
    ensures var m := Exit(e);
            var t := Execute(json, s, [ToClient(Flush(Size(json, l, m))), OnServer(SendReturns(true)),
                                       ToClient(Deliver(Size(json, l, m)))]);
            && t == s.(s2c := L.Deliver(Sent(json, l, m), |Sent(json, l, m).flight|),
                       server := s.server.(task := s.server.task.(conn := s.server.task.conn.(phase := S.Done))))
            && ScanFrame(t.s2c.rbuf).Got? && FromFrame(json, ScanFrame(t.s2c.rbuf).frame) == Ok(m)
  {
    var m := Exit(e);
    Three(json, s, ToClient(Flush(Size(json, l, m))), OnServer(SendReturns(true)), ToClient(Deliver(Size(json, l, m))));
    ToClientSent(json, s, l, m);
    var t := Next(json, s, ToClient(Flush(Size(json, l, m))));
    ReportSent(json, t);
    ToClientDelivered(json, Next(json, t, OnServer(SendReturns(true))), l, m);
  }

  lemma ReportSent(json: Json, s: System)
    requires s.serverUp && s.server.task.conn.phase.Closing? && SendMayReturn(s.s2c, true)
    ensures Next(json, s, OnServer(SendReturns(true))) ==
              s.(server := s.server.(task := s.server.task.(conn := s.server.task.conn.(phase := S.Done))))
  {
  }

  lemma GetsExit(json: Json, s: System, e: ExitMsg)
    requires s.clientUp && s.host.session.client.phase.Looping?
    requires ScanFrame(s.s2c.rbuf).Got? && FromFrame(json, ScanFrame(s.s2c.rbuf).frame) == Ok(Exit(e))
    ensures var t := Next(json, s, OnClient(GetFrame(None)));
            && t.host.session == s.host.session.(client := s.host.session.client.(phase := C.Finished(C.ByExit(e))))
            && t.server == s.server
  {
  }

  /** The child ends, and the client ends on its report. */
  lemma EndingLeg(json: Json, s: System, status: S.ExitStatus) returns (steps: seq<Step>)
    requires Faithful(json) && Idle(s) && L.Wire(json, Exit(ReportOf(status))).Some?
    ensures var t := Execute(json, s, steps);
            && t.host.session == s.host.session.(client := s.host.session.client.(phase := C.Finished(C.ByExit(ReportOf(status)))))
            && t.server.task.conn.phase.Done? && t.server.child == Reaped(status)
            && t.server.childIn == s.server.childIn && t.server.delivered == s.server.delivered
            && t.server.eofClosed == s.server.eofClosed
  {
    var m := Exit(ReportOf(status));
    var one := [ChildExits(status), OutPump(PipeCloses), OutPump(ReadEof), ErrPump(PipeCloses), ErrPump(ReadEof)];
    var two := [OnServer(OutputsClosed), OnServer(WaitReturns), OnServer(Continue)];
    var three := [ToClient(Flush(Size(json, s.s2c, m))), OnServer(SendReturns(true)), ToClient(Deliver(Size(json, s.s2c, m)))];
    var four := [OnClient(GetFrame(None))];
    ChildEnds(json, s, status);
    var t := Execute(json, s, one);
    WaitIsReported(json, t, status);
    var u := Execute(json, t, two);
    ReportGoes(json, u, s.s2c, ReportOf(status));
    var v := Execute(json, u, three);
    GetsExit(json, v, ReportOf(status));
    One(json, v, OnClient(GetFrame(None)));
    FourParts(json, s, one, two, three, four);
    steps := one + two + three + four;
  }

  // ------------------------------------------------------------- shutdown

  lemma SeesStop(json: Json, s: System)
    requires Idle(s)
    ensures var task := S.Task(s.server.task.conn.(phase := S.Notifying, stoppingOpen := false),
                               s.server.task.trace + [S.Emit(ServerStopping)]);
            Execute(json, s, [StopRaised, OnServer(SeeStop)]) ==
              s.(stop := true, server := s.server.(task := task), s2c := L.Push(json, s.s2c, ServerStopping))
  {
    Two(json, s, StopRaised, OnServer(SeeStop));
  }

  lemma Terms(json: Json, s: System)
    requires s.serverUp && s.server.task.conn.phase.Notifying? && SendMayReturn(s.s2c, true)
    ensures Next(json, s, OnServer(SendReturns(true))) ==
              s.(server := s.server.(task := S.Task(s.server.task.conn.(phase := S.Bridging),
                                                    s.server.task.trace + [S.Kill(SIGTERM, S.Shutdown)])))
  {
  }

  lemma GetsNotice(json: Json, s: System)
    requires s.clientUp && s.host.session.client.phase.Looping?
    requires ScanFrame(s.s2c.rbuf).Got? && FromFrame(json, ScanFrame(s.s2c.rbuf).frame) == Ok(ServerStopping)
    ensures var t := Next(json, s, OnClient(GetFrame(None)));
            && t.host.session == s.host.session.(client := s.host.session.client.(phase := C.Finished(C.ByStopping)))
            && t.server == s.server && t.stop == s.stop
  {
  }

  /** The shutdown is signalled: the client leaves on the notice, and the child gets its TERM. */
  lemma ShutdownLeg(json: Json, s: System) returns (steps: seq<Step>)
    requires Faithful(json) && Idle(s)
    ensures var t := Execute(json, s, steps);
            && t.stop && t.host.session == s.host.session.(client := s.host.session.client.(phase := C.Finished(C.ByStopping)))
            && t.server.task.trace == s.server.task.trace + [S.Emit(ServerStopping), S.Kill(SIGTERM, S.Shutdown)]
  {
    var m := ServerStopping;
    var one := [StopRaised, OnServer(SeeStop)];
    var two := [ToClient(Flush(Size(json, s.s2c, m))), OnServer(SendReturns(true)), ToClient(Deliver(Size(json, s.s2c, m)))];
    SeesStop(json, s);
    var t := Execute(json, s, one);
    Three(json, t, ToClient(Flush(Size(json, s.s2c, m))), OnServer(SendReturns(true)), ToClient(Deliver(Size(json, s.s2c, m))));
    ToClientSent(json, t, s.s2c, m);
    var u := Next(json, t, ToClient(Flush(Size(json, s.s2c, m))));
    Terms(json, u);
    var v := Next(json, u, OnServer(SendReturns(true)));
    ToClientDelivered(json, v, s.s2c, m);
    var w := Next(json, v, ToClient(Deliver(Size(json, s.s2c, m))));
    GetsNotice(json, w);
    One(json, w, OnClient(GetFrame(None)));
    Then(json, s, one, two);
    Then(json, s, one + two, [OnClient(GetFrame(None))]);
    steps := one + two + [OnClient(GetFrame(None))];
    assert s.server.task.trace + [S.Emit(ServerStopping)] + [S.Kill(SIGTERM, S.Shutdown)] ==
           s.server.task.trace + [S.Emit(ServerStopping), S.Kill(SIGTERM, S.Shutdown)];
  }

  // ------------------------------------------------------------ disconnect

  function Quits(t: S.Task): S.Task {
    S.Task(t.conn.(stdinOpen := false, clientWritesOpen := false), if t.conn.stdinOpen then t.trace + [S.DropStdin] else t.trace)
  }

  lemma ClientQuits(json: Json, s: System)
    requires Idle(s)
    ensures Execute(json, s, [ClientDies, OnServer(TakeEof)]) ==
              s.(clientUp := false, server := s.server.(task := Quits(s.server.task)))
  {
    Two(json, s, ClientDies, OnServer(TakeEof));
  }

  lemma SendBreaks(json: Json, s: System)
    requires s.serverUp && s.server.task.conn.phase.Relaying? && s.s2c.wbuf != []
    ensures Execute(json, s, [ToClient(Break), OnServer(SendReturns(false))]) ==
              s.(s2c := s.s2c.(broken := true),
                 server := s.server.(task := S.Task(s.server.task.conn.(phase := S.Abandoning, stdinOpen := false),
                                                    s.server.task.trace + [S.BridgeOver(false)])))
  {
    Two(json, s, ToClient(Break), OnServer(SendReturns(false)));
  }

  lemma Abandons(json: Json, s: System)
    requires s.serverUp && s.server.task.conn.phase.Abandoning?
    ensures Next(json, s, OnServer(Continue)) ==
              s.(server := s.server.(task := S.Task(s.server.task.conn.(phase := S.Reaping),
                                                    s.server.task.trace + [S.Kill(SIGTERM, S.Disconnect)])))
  {
  }

  lemma Reaps(json: Json, s: System, status: S.ExitStatus)
    requires s.serverUp && s.server.task.conn.phase.Reaping? && s.server.child.Alive?
    ensures Execute(json, s, [ChildExits(status), OnServer(WaitReturns)]) ==
              s.(server := s.server.(child := Reaped(status),
                                     task := S.Task(s.server.task.conn.(phase := S.Done), s.server.task.trace + [S.Reap])))
  {
    Two(json, s, ChildExits(status), OnServer(WaitReturns));
  }

  function Cleanup(m: Message): seq<S.Effect> {
    [S.Emit(m), S.BridgeOver(false), S.Kill(SIGTERM, S.Disconnect), S.Reap]
  }

  lemma InTurn(tr: seq<S.Effect>, m: Message)
    ensures tr + [S.Emit(m)] + [S.BridgeOver(false)] + [S.Kill(SIGTERM, S.Disconnect)] + [S.Reap] == tr + Cleanup(m)
  {
  }

  lemma PushedIsPending(json: Json, l: L.Link, m: Message)
    requires L.Wire(json, m).Some?
    ensures L.Push(json, l, m).wbuf != []
  {
  }

  /** The client is killed: its end closes the child's pipe, and the child's next output, which no longer gets
      through, leads to TERM and the wait. */
  lemma DisconnectLeg(json: Json, s: System, b: seq<byte>, status: S.ExitStatus) returns (steps: seq<Step>)
    requires Idle(s) && 0 < |b| <= BUFFER
    ensures var t := Execute(json, s, steps);
            && !t.clientUp && t.server.child == Reaped(status) && t.server.task.conn.phase.Done?
            && t.server.task.trace == Quits(s.server.task).trace + Cleanup(Stdout(b))
  {
    var m := Stdout(b);
    OutputFits(json, true, b);
    var one := [ClientDies, OnServer(TakeEof)];
    ClientQuits(json, s);
    var t := Execute(json, s, one);
    var two := [OutPump(ChildWrites(b)), OutPump(ReadChunk(|b|)), OutPump(QueueChunk)];
    ChildSpeaks(json, t, true, b);
    var u := Execute(json, t, two);
    TakesOutput(json, u, m);
    One(json, u, OnServer(TakeOutput));
    PushedIsPending(json, s.s2c, m);
    var v := Next(json, u, OnServer(TakeOutput));
    var w, rest := GivesUp(json, v, status);
    FourParts(json, s, one, two, [OnServer(TakeOutput)], rest);
    steps := one + two + [OnServer(TakeOutput)] + rest;
    InTurn(Quits(s.server.task).trace, m);
  }

  lemma GivesUp(json: Json, s: System, status: S.ExitStatus) returns (t: System, steps: seq<Step>)
    requires s.serverUp && s.server.task.conn.phase.Relaying? && s.s2c.wbuf != [] && s.server.child.Alive?
    ensures t == Execute(json, s, steps)
    ensures t.clientUp == s.clientUp && t.server.child == Reaped(status) && t.server.task.conn.phase.Done?
    ensures t.server.task.trace ==
              s.server.task.trace + [S.BridgeOver(false)] + [S.Kill(SIGTERM, S.Disconnect)] + [S.Reap]
  {
    var one, three := [ToClient(Break), OnServer(SendReturns(false))], [ChildExits(status), OnServer(WaitReturns)];
    SendBreaks(json, s);
    var u := Execute(json, s, one);
    Abandons(json, u);
    One(json, u, OnServer(Continue));
    var v := Next(json, u, OnServer(Continue));
    Reaps(json, v, status);
    t := Execute(json, v, three);
    Then(json, s, one, [OnServer(Continue)]);
    Then(json, s, one + [OnServer(Continue)], three);
    steps := one + [OnServer(Continue)] + three;
  }

  // ------------------------------------------------------------- exchanges

  /** One thing that happens while the child runs. */
  datatype Exchange = ChildOut(bytes: seq<byte>) | ChildErr(bytes: seq<byte>) | HostIn(bytes: seq<byte>) | HostEnd | HostSignal(signal: byte)

  function OutOf(xs: seq<Exchange>): seq<byte> {
    if xs == [] then [] else (if xs[0].ChildOut? then xs[0].bytes else []) + OutOf(xs[1..])
  }

  function ErrOf(xs: seq<Exchange>): seq<byte> {
    if xs == [] then [] else (if xs[0].ChildErr? then xs[0].bytes else []) + ErrOf(xs[1..])
  }

  function InOf(xs: seq<Exchange>): seq<byte> {
    if xs == [] then [] else (if xs[0].HostIn? then xs[0].bytes else []) + InOf(xs[1..])
  }

  function SignalsOf(xs: seq<Exchange>): seq<byte> {
    if xs == [] then [] else (if xs[0].HostSignal? then [xs[0].signal] else []) + SignalsOf(xs[1..])
  }

  /** Chunks are what one read yields, the relayed signals are the two, and stdin has one end. */
  ghost predicate Possible(xs: seq<Exchange>) {
    && (forall x <- xs :: x.ChildOut? || x.ChildErr? || x.HostIn? ==> 0 < |x.bytes| <= BUFFER)
    && (forall x <- xs :: x.HostSignal? ==> x.signal == SIGINT || x.signal == SIGTERM)
    && (forall i, j :: 0 <= i < j < |xs| && xs[i].HostEnd? ==> !xs[j].HostEnd? && !xs[j].HostIn?)
  }

  lemma LaterPossible(xs: seq<Exchange>)
    requires Possible(xs) && xs != []
    ensures Possible(xs[1..])
    ensures xs[0].HostEnd? ==> forall x <- xs[1..] :: !x.HostEnd? && !x.HostIn?
    ensures (forall x <- xs :: !x.HostEnd? && !x.HostIn?) ==> forall x <- xs[1..] :: !x.HostEnd? && !x.HostIn?
  {
    assert forall x <- xs[1..] :: x in xs;
    assert forall j :: 0 <= j < |xs| - 1 ==> xs[1..][j] == xs[j + 1];
  }

  /** What has changed at a later rest: everything that was exchanged has arrived. */
  predicate Exchanged(s: System, t: System, xs: seq<Exchange>) {
    && Leads(s, t, OutOf(xs), ErrOf(xs), InOf(xs), SignalsOf(xs))
    && (t.server.eofClosed <==> s.server.eofClosed || HostEnd in xs)
    && (t.host.live <==> s.host.live && HostEnd !in xs)
  }

  lemma OneExchange(json: Json, s: System, x: Exchange) returns (steps: seq<Step>)
    requires Faithful(json) && Idle(s) && Possible([x]) && (x.HostIn? || x.HostEnd? ==> s.host.live)
    ensures Exchanged(s, Execute(json, s, steps), [x])
  {
    assert x in [x];
    assert [x][1..] == [];
    match x {
      case ChildOut(b) => steps := OutputLeg(json, s, true, b);
      case ChildErr(b) => steps := OutputLeg(json, s, false, b);
      case HostIn(b) => steps := StdinLeg(json, s, b);
      case HostEnd => steps := EndLeg(json, s);
      case HostSignal(n) => steps := SignalLeg(json, s, n);
    }
    Singles(x);
  }

  lemma Singles(x: Exchange)
    ensures OutOf([x]) == if x.ChildOut? then x.bytes else []
    ensures ErrOf([x]) == if x.ChildErr? then x.bytes else []
    ensures InOf([x]) == if x.HostIn? then x.bytes else []
    ensures SignalsOf([x]) == if x.HostSignal? then [x.signal] else []
  {
    assert [x][1..] == [];
  }

  lemma ThenExchanged(s: System, t: System, u: System, x: Exchange, rest: seq<Exchange>)
    requires Exchanged(s, t, [x]) && Exchanged(t, u, rest)
    ensures Exchanged(s, u, [x] + rest)
  {
    var xs := [x] + rest;
    assert xs[1..] == rest && xs[0] == x;
    Singles(x);
    Regroup(s.host.session.out, OutOf([x]), OutOf(rest));
    Regroup(s.host.session.err, ErrOf([x]), ErrOf(rest));
    Regroup(s.server.childIn, InOf([x]), InOf(rest));
    Regroup(s.server.delivered, SignalsOf([x]), SignalsOf(rest));
  }

  lemma Regroup(a: seq<byte>, b: seq<byte>, c: seq<byte>)
    ensures (a + b) + c == a + (b + c)
  {
  }

  lemma Unchanged(s: System)
    requires Idle(s)
    ensures Exchanged(s, s, [])
  {
    assert s.host.session.out + [] == s.host.session.out && s.host.session.err + [] == s.host.session.err;
    assert s.server.childIn + [] == s.server.childIn && s.server.delivered + [] == s.server.delivered;
  }

  lemma {:induction false} Exchanges(json: Json, s: System, xs: seq<Exchange>) returns (steps: seq<Step>)
    requires Faithful(json) && Idle(s) && Possible(xs)
    requires !s.host.live ==> forall x <- xs :: !x.HostEnd? && !x.HostIn?
    ensures Exchanged(s, Execute(json, s, steps), xs)
    decreases |xs|
  {
    if xs == [] {
      steps := [];
      Unchanged(s);
    } else {
      LaterPossible(xs);
      FirstPossible(xs);
      var one := OneExchange(json, s, xs[0]);
      var t := Execute(json, s, one);
      var rest := Exchanges(json, t, xs[1..]);
      assert xs == [xs[0]] + xs[1..];
      ThenExchanged(s, t, Execute(json, t, rest), xs[0], xs[1..]);
      Then(json, s, one, rest);
      steps := one + rest;
    }
  }

  lemma FirstPossible(xs: seq<Exchange>)
    requires Possible(xs) && xs != []
    ensures Possible([xs[0]]) && xs[0] in xs
  {
  }

  /** From the start to a rest behind an exchange. */
  lemma AfterExchanges(json: Json, request: Request, xs: seq<Exchange>) returns (steps: seq<Step>)
    requires Faithful(json) && Possible(xs) && (forall entry <- request.env :: '=' in entry)
    requires L.Wire(json, Run(request)).Some?
    ensures var t := Execute(json, Begin(json, request), steps);
            && Idle(t) && (t.host.live <==> HostEnd !in xs) && (t.server.eofClosed <==> HostEnd in xs)
            && t.host.session.out == OutOf(xs) && t.host.session.err == ErrOf(xs)
            && t.server.childIn == InOf(xs) && t.server.delivered == SignalsOf(xs)
  {
    P.GoodEnv(request.env);
    var one := OpeningLeg(json, request);
    var t := Execute(json, Begin(json, request), one);
    var two := Exchanges(json, t, xs);
    Then(json, Begin(json, request), one, two);
    steps := one + two;
    FromNothing(t, Execute(json, t, two), xs);
  }

  /** Everything can arrive. For every request that can be sent and launched, every exchange, and every way
      the child can end, there is a run in which the client shows exactly the child's output, the child gets
      exactly the host's input and signals, and its pipe is closed if host stdin ended, and in which the
      client ends on the report of how the child ended. */
  lemma EveryExchangeHappens(json: Json, request: Request, xs: seq<Exchange>, status: S.ExitStatus) returns (steps: seq<Step>)
    requires Faithful(json) && Possible(xs) && (forall entry <- request.env :: '=' in entry)
    requires L.Wire(json, Run(request)).Some? && L.Wire(json, Exit(ReportOf(status))).Some?
    ensures var t := Execute(json, Begin(json, request), steps);
            && t.host.session.out == OutOf(xs) && t.host.session.err == ErrOf(xs)
            && t.server.childIn == InOf(xs) && t.server.delivered == SignalsOf(xs)
            && (t.server.eofClosed <==> HostEnd in xs)
            && t.host.session.client.phase == C.Finished(C.ByExit(ReportOf(status)))
            && t.server.task.conn.phase.Done? && t.server.child == Reaped(status)
  {
    var before := AfterExchanges(json, request, xs);
    var last := EndingLeg(json, Execute(json, Begin(json, request), before), status);
    Then(json, Begin(json, request), before, last);
    steps := before + last;
  }

  lemma FromNothing(t: System, u: System, xs: seq<Exchange>)
    requires Exchanged(t, u, xs) && !t.server.eofClosed
    requires t.host.session.out == [] && t.host.session.err == [] && t.server.childIn == [] && t.server.delivered == []
    ensures u.host.session.out == OutOf(xs) && u.host.session.err == ErrOf(xs)
    ensures u.server.childIn == InOf(xs) && u.server.delivered == SignalsOf(xs)
    ensures u.server.eofClosed <==> HostEnd in xs
  {
  }

  /** And a shutdown can reach both ends behind any exchange: the client has shown what came before, and leaves
      on the notice; the last thing the server did was to send TERM to the child. */
  lemma ShutdownReachesBoth(json: Json, request: Request, xs: seq<Exchange>) returns (steps: seq<Step>)
    requires Faithful(json) && Possible(xs) && (forall entry <- request.env :: '=' in entry)
    requires L.Wire(json, Run(request)).Some?
    ensures var t := Execute(json, Begin(json, request), steps);
            && t.host.session.out == OutOf(xs) && t.host.session.err == ErrOf(xs)
            && t.host.session.client.phase == C.Finished(C.ByStopping)
            && |t.server.task.trace| >= 2
            && t.server.task.trace[|t.server.task.trace| - 2..] == [S.Emit(ServerStopping), S.Kill(SIGTERM, S.Shutdown)]
  {
    var before := AfterExchanges(json, request, xs);
    var u := Execute(json, Begin(json, request), before);
    var last := ShutdownLeg(json, u);
    Then(json, Begin(json, request), before, last);
    steps := before + last;
    LastTwo(u.server.task.trace, S.Emit(ServerStopping), S.Kill(SIGTERM, S.Shutdown));
  }

  lemma LastTwo(tr: seq<S.Effect>, a: S.Effect, b: S.Effect)
    ensures (tr + [a, b])[|tr + [a, b]| - 2..] == [a, b]
  {
  }

  /** And a client that is killed behind any exchange is cleaned up after: the run can end with the child's
      pipe closed, TERM sent and the child awaited, although its next output got nowhere. */
  lemma DisconnectIsCleanedUp(json: Json, request: Request, xs: seq<Exchange>, b: seq<byte>, status: S.ExitStatus)
    returns (steps: seq<Step>)
    requires Faithful(json) && Possible(xs) && (forall entry <- request.env :: '=' in entry)
    requires L.Wire(json, Run(request)).Some? && 0 < |b| <= BUFFER
    ensures var t := Execute(json, Begin(json, request), steps);
            && !t.clientUp && t.server.child == Reaped(status) && t.server.task.conn.phase.Done?
            && EndsAs(t.server.task.trace, [S.Emit(Stdout(b)), S.BridgeOver(false), S.Kill(SIGTERM, S.Disconnect), S.Reap])
            && (HostEnd !in xs ==>
                  EndsAs(t.server.task.trace,
                         [S.DropStdin, S.Emit(Stdout(b)), S.BridgeOver(false), S.Kill(SIGTERM, S.Disconnect), S.Reap]))
  {
    var before := AfterExchanges(json, request, xs);
    var u := Execute(json, Begin(json, request), before);
    var last := DisconnectLeg(json, u, b, status);
    Then(json, Begin(json, request), before, last);
    steps := before + last;
    CleanupEnds(u.server.task, Stdout(b));
  }

  ghost predicate EndsAs(tr: seq<S.Effect>, tail: seq<S.Effect>) {
    |tr| >= |tail| && tr[|tr| - |tail|..] == tail
  }

  lemma CleanupEnds(t: S.Task, m: Message)
    ensures var tr := Quits(t).trace + Cleanup(m);
            && EndsAs(tr, [S.Emit(m), S.BridgeOver(false), S.Kill(SIGTERM, S.Disconnect), S.Reap])
            && (t.conn.stdinOpen ==>
                  EndsAs(tr, [S.DropStdin, S.Emit(m), S.BridgeOver(false), S.Kill(SIGTERM, S.Disconnect), S.Reap]))
  {
  }
}
