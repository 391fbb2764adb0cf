/** What holds in every reachable state of an exec connection. */
module ExecSafety {
  import opened Wrappers
  import opened Protocol
  import Framing
  import L = Link
  import S = ServerConnection
  import P = ServerProtocol
  import C = ClientSession
  import opened ExecConnection

  // -------------------------------------------------------- byte accounting

  datatype Kind = OutBytes | ErrBytes | InBytes | Signals

  /** What one message contributes to a byte stream. */
  function Part(k: Kind, m: Message): seq<byte> {
    match m
    case Stdout(b) => if k.OutBytes? then b else []
    case Stderr(b) => if k.ErrBytes? then b else []
    case Stdin(b) => if k.InBytes? then b else []
    case Signal(n) => if k.Signals? then [n] else []
    case _ => []
  }

  function Gather(k: Kind, ms: seq<Message>): seq<byte> {
    if ms == [] then [] else Gather(k, ms[..|ms| - 1]) + Part(k, ms[|ms| - 1])
  }

  lemma GatherSnoc(k: Kind, ms: seq<Message>, m: Message)
    ensures Gather(k, ms + [m]) == Gather(k, ms) + Part(k, m)
  {
    assert (ms + [m])[..|ms|] == ms;
  }

  lemma {:induction false} GatherAppend(k: Kind, a: seq<Message>, b: seq<Message>)
    ensures Gather(k, a + b) == Gather(k, a) + Gather(k, b)
    decreases |b|
  {
    if b == [] {
      assert a + b == a;
      assert Gather(k, a) + [] == Gather(k, a);
    } else {
      var front, last := b[..|b| - 1], b[|b| - 1];
      SplitLast(a, b);
      GatherAppend(k, a, front);
      GatherSnoc(k, a + front, last);
      Framing.Assoc(Gather(k, a), Gather(k, front), Part(k, last));
    }
  }

  lemma SplitLast<T>(a: seq<T>, b: seq<T>)
    requires b != []
    ensures a + b == (a + b[..|b| - 1]) + [b[|b| - 1]]
  {
  }

  lemma GatherPrefix(k: Kind, ms: seq<Message>, n: nat)
    requires n <= |ms|
    ensures Gather(k, ms[..n]) <= Gather(k, ms)
  {
    assert ms == ms[..n] + ms[n..];
    GatherAppend(k, ms[..n], ms[n..]);
  }

  lemma GatherCons(k: Kind, ms: seq<Message>)
    requires ms != []
    ensures Gather(k, ms) == Part(k, ms[0]) + Gather(k, ms[1..])
  {
    assert ms == [ms[0]] + ms[1..];
    GatherAppend(k, [ms[0]], ms[1..]);
    GatherSnoc(k, [], ms[0]);
    assert [] + [ms[0]] == [ms[0]];
  }

  // ------------------------------------------------------------- the wires

  ghost predicate Wires(json: Json, s: System) {
    L.Intact(json, s.s2c) && L.Intact(json, s.c2s)
  }

  lemma WiresLink(json: Json, l: L.Link, up: bool, n: NetStep)
    requires L.Intact(json, l)
    ensures L.Intact(json, MoveLink(l, up, n))
  {
    match n {
      case Flush(k) => if up && !l.broken && k <= |l.wbuf| { L.FlushIntact(json, l, k); }
      case Break =>
      case Deliver(k) => if k <= |l.flight| { L.DeliverIntact(json, l, k); }
    }
  }

  lemma WiresReact(json: Json, s: System, i: S.Input)
    requires Wires(json, s)
    ensures Wires(json, React(json, s, i))
  {
    var e := S.React(s.server.task.conn, i).effect;
    if e.Emit? {
      L.PushIntact(json, s.s2c, e.m);
    }
  }

  lemma WiresClientReact(json: Json, s: System, i: C.Input)
    requires Wires(json, s)
    ensures Wires(json, ClientReact(json, s, i))
  {
    var e := C.React(s.host.session.client, i).effect;
    if e.Transmit? {
      L.PushIntact(json, s.c2s, e.m);
    }
  }

  lemma WiresOffer(json: Json, s: System, m: ServerStep)
    requires Faithful(json) && Wires(json, s)
    ensures var o := ServerOffer(json, s, m); o.Offer? ==> Wires(json, o.world)
  {
    L.Receive(json, s.c2s);
  }

  lemma WiresServer(json: Json, s: System, m: ServerStep)
    requires Faithful(json) && Wires(json, s)
    ensures Wires(json, MoveServer(json, s, m))
  {
    WiresOffer(json, s, m);
    var o := ServerOffer(json, s, m);
    if o.Offer? {
      WiresReact(json, o.world, o.input);
    }
  }

  lemma WiresClient(json: Json, s: System, m: ClientStep)
    requires Faithful(json) && Wires(json, s)
    ensures Wires(json, MoveClient(json, s, m))
  {
    L.Receive(json, s.s2c);
    var o := ClientOffer(json, s, m);
    if o.Offer? {
      WiresClientReact(json, o.world, o.input);
    }
  }

  lemma WiresNext(json: Json, s: System, st: Step)
    requires Faithful(json) && Wires(json, s)
    ensures Wires(json, Next(json, s, st))
  {
    match st
    case ToClient(n) => WiresLink(json, s.s2c, s.serverUp, n);
    case ToServer(n) => WiresLink(json, s.c2s, s.clientUp, n);
    case OnServer(m) => WiresServer(json, s, m);
    case OnClient(m) => WiresClient(json, s, m);
    case _ =>
  }

  // ------------------------------------------------- the frames on the wire

  /** The messages the encoder lets through. */
  function Accepted(json: Json, ms: seq<Message>): seq<Message> {
    if ms == [] then []
    else
      var front := Accepted(json, ms[..|ms| - 1]);
      if L.Wire(json, ms[|ms| - 1]).Some? then front + [ms[|ms| - 1]] else front
  }

  lemma AcceptedSnoc(json: Json, ms: seq<Message>, m: Message)
    ensures Accepted(json, ms + [m]) == if L.Wire(json, m).Some? then Accepted(json, ms) + [m] else Accepted(json, ms)
  {
    assert (ms + [m])[..|ms|] == ms;
  }

  /** The server's task is a run of `ServerConnection`, and what it said is what went out. */
  ghost predicate Spoken(json: Json, s: System) {
    && P.Good(s.server.task)
    && s.s2c.sent == Accepted(json, S.Emits(s.server.task.trace))
  }

  /** What waits in the output channel is what the pumps wrapped. */
  ghost predicate QueueOk(s: System) {
    && (forall m <- s.server.queue :: (m.Stdout? || m.Stderr?) && 0 < |m.bytes| <= BUFFER)
    && |s.server.out.held| <= BUFFER
    && |s.server.err.held| <= BUFFER
  }

  /** The task moves along `e` to `d`, and `e` reaches the world. */
  function Took(json: Json, s: System, i: S.Input, e: S.Effect, d: S.Conn): System {
    Act(json, s.(server := s.server.(task := S.Task(d, P.Record(s.server.task.trace, e)))), i, e)
  }

  lemma ReactIsTook(json: Json, s: System, i: S.Input)
    ensures var r := S.React(s.server.task.conn, i); React(json, s, i) == Took(json, s, i, r.effect, r.conn)
  {
  }

  lemma OfferIsFromPumps(json: Json, s: System, m: ServerStep)
    requires QueueOk(s)
    ensures var o := ServerOffer(json, s, m);
            o.Offer? ==> P.FromPumps(o.input) && o.world.server.task == s.server.task && o.world.s2c == s.s2c
                         && QueueOk(o.world)
  {
  }

  lemma AcceptedRecord(json: Json, tr: seq<S.Effect>, e: S.Effect)
    ensures var said := Accepted(json, S.Emits(tr));
            Accepted(json, S.Emits(P.Record(tr, e))) == if e.Emit? && L.Wire(json, e.m).Some? then said + [e.m] else said
  {
    P.EmitsSnoc(tr, e);
    if e.Emit? {
      AcceptedSnoc(json, S.Emits(tr), e.m);
    }
  }

  lemma SentTook(json: Json, s: System, i: S.Input, e: S.Effect, d: S.Conn)
    ensures var t := Took(json, s, i, e, d);
            && t.s2c.sent == (if e.Emit? && L.Wire(json, e.m).Some? then s.s2c.sent + [e.m] else s.s2c.sent)
            && t.server.task == S.Task(d, P.Record(s.server.task.trace, e))
  {
  }

  lemma SpokenTook(json: Json, s: System, i: S.Input, e: S.Effect, d: S.Conn)
    requires Spoken(json, s) && P.Good(S.Task(d, P.Record(s.server.task.trace, e)))
    ensures Spoken(json, Took(json, s, i, e, d))
  {
    AcceptedRecord(json, s.server.task.trace, e);
    SentTook(json, s, i, e, d);
  }

  lemma SpokenReact(json: Json, s: System, i: S.Input)
    requires Spoken(json, s) && P.FromPumps(i)
    ensures Spoken(json, React(json, s, i))
  {
    var r := S.React(s.server.task.conn, i);
    P.GoodStep(s.server.task, i);
    P.StepRecords(s.server.task, i);
    ReactIsTook(json, s, i);
    SpokenTook(json, s, i, r.effect, r.conn);
  }

  lemma SpokenNext(json: Json, s: System, st: Step)
    requires Spoken(json, s) && QueueOk(s)
    ensures Spoken(json, Next(json, s, st))
  {
    if st.OnServer? {
      OfferIsFromPumps(json, s, st.s);
      var o := ServerOffer(json, s, st.s);
      if o.Offer? {
        SpokenReact(json, o.world, o.input);
      }
    } else {
      TaskElsewhere(json, s, st);
    }
  }

  /** A client step leaves the server side alone, apart from taking frames off the socket. */
  lemma ClientFrame(json: Json, s: System, m: ClientStep)
    ensures var t := MoveClient(json, s, m);
            t.server == s.server && t.s2c.sent == s.s2c.sent && t.c2s.got == s.c2s.got
  {
    var o := ClientOffer(json, s, m);
    if o.Offer? {
      ClientOfferFrame(json, s, m);
      ClientReactFrame(json, o.world, o.input);
    }
  }

  lemma ClientOfferFrame(json: Json, s: System, m: ClientStep)
    ensures var o := ClientOffer(json, s, m);
            o.Offer? ==> o.world.server == s.server && o.world.s2c.sent == s.s2c.sent && o.world.c2s == s.c2s
                         && o.world.host.session == s.host.session
  {
  }

  lemma ClientReactFrame(json: Json, s: System, i: C.Input)
    ensures var t := ClientReact(json, s, i);
            t.server == s.server && t.s2c == s.s2c && t.c2s.got == s.c2s.got
  {
  }

  /** A server step leaves the client side alone, apart from taking frames off the socket. */
  lemma ServerFrame(json: Json, s: System, m: ServerStep)
    ensures var t := MoveServer(json, s, m);
            t.host == s.host && t.c2s.sent == s.c2s.sent && t.s2c.got == s.s2c.got
  {
    var o := ServerOffer(json, s, m);
    if o.Offer? {
      OfferFrame(json, s, m);
      ReactFrame(json, o.world, o.input);
    }
  }

  lemma OfferFrame(json: Json, s: System, m: ServerStep)
    ensures var o := ServerOffer(json, s, m);
            o.Offer? ==> o.world.host == s.host && o.world.c2s.sent == s.c2s.sent && o.world.s2c == s.s2c
  {
  }

  lemma TookFrame(json: Json, s: System, i: S.Input, e: S.Effect, d: S.Conn)
    ensures var t := Took(json, s, i, e, d);
            t.host == s.host && t.c2s == s.c2s && t.s2c.got == s.s2c.got && t.server.queue == s.server.queue
  {
  }

  lemma ReactFrame(json: Json, s: System, i: S.Input)
    ensures var t := React(json, s, i);
            t.host == s.host && t.c2s == s.c2s && t.s2c.got == s.s2c.got && t.server.queue == s.server.queue
  {
    var r := S.React(s.server.task.conn, i);
    ReactIsTook(json, s, i);
    TookFrame(json, s, i, r.effect, r.conn);
  }

  lemma TaskElsewhere(json: Json, s: System, st: Step)
    requires !st.OnServer?
    ensures Next(json, s, st).server.task == s.server.task
    ensures Next(json, s, st).s2c.sent == s.s2c.sent
  {
    if st.OnClient? {
      ClientFrame(json, s, st.c);
    }
  }

  lemma QueuePump(s: System, st: PumpStep, stdout: bool)
    requires QueueOk(s)
    ensures var p := if stdout then s.server.out else s.server.err;
            var m := MovePump(p, s.server.queue, ReceiverAlive(s.server.task.conn.phase), stdout, st);
            && (forall x <- m.1 :: (x.Stdout? || x.Stderr?) && 0 < |x.bytes| <= BUFFER)
            && |m.0.held| <= BUFFER
  {
  }

  lemma QueueTook(json: Json, s: System, i: S.Input, e: S.Effect, d: S.Conn)
    requires QueueOk(s)
    ensures QueueOk(Took(json, s, i, e, d))
  {
  }

  lemma QueueServer(json: Json, s: System, m: ServerStep)
    requires QueueOk(s)
    ensures QueueOk(MoveServer(json, s, m))
  {
    var o := ServerOffer(json, s, m);
    if o.Offer? {
      OfferIsFromPumps(json, s, m);
      var r := S.React(o.world.server.task.conn, o.input);
      ReactIsTook(json, o.world, o.input);
      QueueTook(json, o.world, o.input, r.effect, r.conn);
    }
  }

  lemma QueueNext(json: Json, s: System, st: Step)
    requires QueueOk(s)
    ensures QueueOk(Next(json, s, st))
  {
    match st
    case OutPump(p) => QueuePump(s, p, true);
    case ErrPump(p) => QueuePump(s, p, false);
    case OnServer(m) => QueueServer(json, s, m);
    case OnClient(m) => ClientFrame(json, s, m);
    case _ =>
  }

  // ------------------------------------------------------- the output relay

  predicate IsOutput(k: Kind) {
    k.OutBytes? || k.ErrBytes?
  }

  function PumpOf(k: Kind, v: Server): Pump {
    if k.OutBytes? then v.out else v.err
  }

  /** The pump ended well: everything the child wrote was read. */
  predicate AllRead(p: Pump) {
    !p.live && !p.faulted ==> p.pipe == [] && p.closed
  }

  /** Where the bytes of one output stream are: said, queued, or held by the pump. */
  ghost predicate Flow(k: Kind, p: Pump, queue: seq<Message>, sent: seq<Message>, c: S.Conn, tr: seq<S.Effect>) {
    var said := Gather(k, sent);
    && (!p.live ==> p.held == [])
    && said <= p.read
    && (S.ChildStarted !in tr ==> p == IDLE_PUMP && queue == [] && said == [])
    && (P.InBridge(c.phase) ==> p.read == said + Gather(k, queue) + p.held && AllRead(p))
    && (S.BridgeOver(true) in tr ==> !p.live && p.read == said && AllRead(p))
  }

  ghost predicate FlowOf(k: Kind, s: System) {
    Flow(k, PumpOf(k, s.server), s.server.queue, s.s2c.sent, s.server.task.conn, s.server.task.trace)
  }

  ghost predicate ChildOk(s: System) {
    s.server.child.NotStarted? <==> S.ChildStarted !in s.server.task.trace
  }

  /** The books of a stream whose receiver is alive: said, queued, held. */
  lemma FlowQueues(k: Kind, p: Pump, queue: seq<Message>, sent: seq<Message>, c: S.Conn, tr: seq<S.Effect>, m: Message)
    requires Flow(k, p, queue, sent, c, tr) && S.ChildStarted in tr && S.BridgeOver(true) !in tr
    ensures Part(k, m) == [] ==> Flow(k, p, queue + [m], sent, c, tr)
    ensures Part(k, m) == p.held ==> Flow(k, p.(held := []), queue + [m], sent, c, tr)
  {
    GatherSnoc(k, queue, m);
    var said, waiting := Gather(k, sent), Gather(k, queue);
    Framing.Assoc(said, waiting, Part(k, m));
    assert said + waiting + p.held + [] == said + waiting + p.held;
    assert waiting + [] == waiting;
  }

  lemma FlowReads(k: Kind, p: Pump, queue: seq<Message>, sent: seq<Message>, c: S.Conn, tr: seq<S.Effect>, n: nat)
    requires Flow(k, p, queue, sent, c, tr) && S.ChildStarted in tr
    requires p.live && p.held == [] && n <= |p.pipe|
    ensures Flow(k, p.(pipe := p.pipe[n..], held := p.pipe[..n], read := p.read + p.pipe[..n]), queue, sent, c, tr)
  {
    var said, waiting := Gather(k, sent), Gather(k, queue);
    assert said + waiting + [] == said + waiting;
  }

  lemma FlowOwnPump(k: Kind, p: Pump, queue: seq<Message>, sent: seq<Message>, c: S.Conn, tr: seq<S.Effect>, st: PumpStep)
    requires IsOutput(k) && Flow(k, p, queue, sent, c, tr) && S.ChildStarted in tr
    requires S.BridgeOver(true) in tr ==> !P.InBridge(c.phase)
    ensures var m := MovePump(p, queue, P.InBridge(c.phase), k.OutBytes?, st); Flow(k, m.0, m.1, sent, c, tr)
  {
    match st
    case QueueChunk =>
      if p.held != [] && P.InBridge(c.phase) {
        FlowQueues(k, p, queue, sent, c, tr, if k.OutBytes? then Stdout(p.held) else Stderr(p.held));
      }
    case ReadChunk(n) =>
      if p.live && p.held == [] && n <= |p.pipe| {
        FlowReads(k, p, queue, sent, c, tr, n);
      }
    case _ =>
  }

  lemma FlowOtherPump(k: Kind, q: Pump, p: Pump, queue: seq<Message>, sent: seq<Message>, c: S.Conn, tr: seq<S.Effect>, st: PumpStep)
    requires IsOutput(k) && Flow(k, p, queue, sent, c, tr) && S.ChildStarted in tr
    requires S.BridgeOver(true) in tr ==> !P.InBridge(c.phase)
    ensures var m := MovePump(q, queue, P.InBridge(c.phase), !k.OutBytes?, st); Flow(k, p, m.1, sent, c, tr)
  {
    if st.QueueChunk? && P.InBridge(c.phase) {
      FlowQueues(k, p, queue, sent, c, tr, if k.OutBytes? then Stderr(q.held) else Stdout(q.held));
    }
  }

  lemma FlowPump(json: Json, k: Kind, s: System, st: Step)
    requires IsOutput(k) && FlowOf(k, s) && ChildOk(s) && P.Control(s.server.task.conn, s.server.task.trace)
    requires st.OutPump? || st.ErrPump?
    ensures FlowOf(k, Next(json, s, st))
  {
    if s.serverUp && !s.server.child.NotStarted? {
      var v, c, tr := s.server, s.server.task.conn, s.server.task.trace;
      if st.OutPump? == k.OutBytes? {
        FlowOwnPump(k, PumpOf(k, v), v.queue, s.s2c.sent, c, tr, st.p);
      } else {
        FlowOtherPump(k, if k.OutBytes? then v.err else v.out, PumpOf(k, v), v.queue, s.s2c.sent, c, tr, st.p);
      }
    }
  }

  /** The task hands the first queued message to `send`. */
  lemma FlowRelay(k: Kind, p: Pump, queue: seq<Message>, sent: seq<Message>, c: S.Conn, tr: seq<S.Effect>, d: S.Conn)
    requires IsOutput(k) && Flow(k, p, queue, sent, c, tr) && P.InBridge(c.phase)
    requires S.ChildStarted in tr && S.BridgeOver(true) !in tr && queue != []
    ensures Flow(k, p, queue[1..], sent + [queue[0]], d, tr + [S.Emit(queue[0])])
  {
    GatherCons(k, queue);
    GatherSnoc(k, sent, queue[0]);
    var said, part, rest := Gather(k, sent), Part(k, queue[0]), Gather(k, queue[1..]);
    assert said + (part + rest) == (said + part) + rest;
  }

  /** Any other move of the task that is not the start of the child or the end of the bridge. */
  lemma FlowMove(k: Kind, p: Pump, queue: seq<Message>, sent: seq<Message>, c: S.Conn, tr: seq<S.Effect>, e: S.Effect, d: S.Conn)
    requires IsOutput(k) && Flow(k, p, queue, sent, c, tr) && P.Edge(c, e, d)
    requires e != S.ChildStarted && e != S.BridgeOver(true)
    ensures Flow(k, p, queue, sent, d, P.Record(tr, e))
  {
  }

  lemma FlowStart(k: Kind, p: Pump, queue: seq<Message>, sent: seq<Message>, c: S.Conn, tr: seq<S.Effect>, d: S.Conn)
    requires IsOutput(k) && Flow(k, p, queue, sent, c, tr) && P.Control(c, tr) && P.Edge(c, S.ChildStarted, d)
    ensures Flow(k, p.(live := true), queue, sent, d, tr + [S.ChildStarted])
  {
  }

  lemma FlowEnd(k: Kind, p: Pump, queue: seq<Message>, sent: seq<Message>, c: S.Conn, tr: seq<S.Effect>, d: S.Conn)
    requires IsOutput(k) && Flow(k, p, queue, sent, c, tr) && P.Control(c, tr) && P.Edge(c, S.BridgeOver(true), d)
    requires queue == [] && !p.live
    ensures Flow(k, p, queue, sent, d, tr + [S.BridgeOver(true)])
  {
  }

  /** Saying something that is not output of this stream changes no count. */
  lemma FlowSaid(k: Kind, p: Pump, queue: seq<Message>, sent: seq<Message>, c: S.Conn, tr: seq<S.Effect>, m: Message)
    requires Flow(k, p, queue, sent, c, tr) && Part(k, m) == []
    ensures Flow(k, p, queue, sent + [m], c, tr)
  {
    GatherSnoc(k, sent, m);
    assert Gather(k, sent) + [] == Gather(k, sent);
  }

  lemma FlowTook(json: Json, k: Kind, s: System, i: S.Input, e: S.Effect, d: S.Conn)
    requires IsOutput(k) && FlowOf(k, s)
    requires P.Control(s.server.task.conn, s.server.task.trace) && P.Edge(s.server.task.conn, e, d)
    requires e.Emit? ==> Part(k, e.m) == []
    requires e == S.BridgeOver(true) ==> s.server.queue == [] && !PumpOf(k, s.server).live
    ensures FlowOf(k, Took(json, s, i, e, d))
  {
    var p, queue, sent, c, tr := PumpOf(k, s.server), s.server.queue, s.s2c.sent, s.server.task.conn, s.server.task.trace;
    if e == S.ChildStarted {
      FlowStart(k, p, queue, sent, c, tr, d);
    } else if e == S.BridgeOver(true) {
      FlowEnd(k, p, queue, sent, c, tr, d);
    } else {
      FlowMove(k, p, queue, sent, c, tr, e, d);
      if e.Emit? {
        FlowSaid(k, p, queue, sent, d, P.Record(tr, e), e.m);
      }
    }
  }

  lemma OnlyOutputsAreSaid(k: Kind, c: S.Conn, i: S.Input)
    requires IsOutput(k) && !i.Output?
    ensures var e := S.React(c, i).effect;
            (e.Emit? ==> Part(k, e.m) == [] || (c.phase.Reporting? && e.m == c.phase.report))
            && (e == S.BridgeOver(true) ==> i.OutputClosed?)
  {
  }

  lemma FlowReact(json: Json, k: Kind, s: System, i: S.Input)
    requires IsOutput(k) && FlowOf(k, s) && !i.Output?
    requires P.Control(s.server.task.conn, s.server.task.trace)
    requires i.OutputClosed? ==> s.server.queue == [] && !PumpOf(k, s.server).live
    ensures FlowOf(k, React(json, s, i))
  {
    var c := s.server.task.conn;
    var r := S.React(c, i);
    P.ReactIsEdge(c, i);
    OnlyOutputsAreSaid(k, c, i);
    ReactIsTook(json, s, i);
    assert c.phase.Reporting? ==> P.Terminal(c.phase.report);
    FlowTook(json, k, s, i, r.effect, r.conn);
  }

  lemma OfferSame(json: Json, s: System, m: ServerStep)
    requires !m.TakeOutput?
    ensures var o := ServerOffer(json, s, m);
            o.Offer? ==>
              && o.world.server == s.server.(child := o.world.server.child)
              && o.world.s2c == s.s2c
              && !o.input.Output?
              && (o.input.OutputClosed? ==> s.server.queue == [] && !s.server.out.live && !s.server.err.live)
  {
  }

  lemma FlowTookOutput(json: Json, k: Kind, s: System, m: Message, d: S.Conn)
    requires IsOutput(k) && FlowOf(k, s) && QueueOk(s) && P.Control(s.server.task.conn, s.server.task.trace)
    requires s.server.task.conn.phase.Bridging? && s.server.queue != [] && m == s.server.queue[0]
    ensures FlowOf(k, Took(json, s.(server := s.server.(queue := s.server.queue[1..])), S.Output(m), S.Emit(m), d))
  {
    var v, t := s.server, s.server.task;
    assert m in v.queue;
    FlowRelay(k, PumpOf(k, v), v.queue, s.s2c.sent, t.conn, t.trace, d);
    RelayTakes(json, s.(server := v.(queue := v.queue[1..])), m, d);
  }

  lemma FlowTakeOutput(json: Json, k: Kind, s: System)
    requires IsOutput(k) && FlowOf(k, s) && QueueOk(s)
    requires P.Control(s.server.task.conn, s.server.task.trace)
    ensures FlowOf(k, MoveServer(json, s, TakeOutput))
  {
    var v, c := s.server, s.server.task.conn;
    if c.phase.Bridging? && v.queue != [] {
      RelayReaction(c, v.queue[0]);
      ReactIsTook(json, s.(server := v.(queue := v.queue[1..])), S.Output(v.queue[0]));
      FlowTookOutput(json, k, s, v.queue[0], c.(phase := S.Relaying));
    }
  }

  lemma RelayReaction(c: S.Conn, m: Message)
    requires c.phase.Bridging?
    ensures S.React(c, S.Output(m)) == S.Reaction(c.(phase := S.Relaying), S.Emit(m))
  {
  }

  lemma RelayTakes(json: Json, s: System, m: Message, d: S.Conn)
    requires (m.Stdout? || m.Stderr?) && |m.bytes| <= BUFFER
    ensures var t := Took(json, s, S.Output(m), S.Emit(m), d);
            && t.server == s.server.(task := S.Task(d, s.server.task.trace + [S.Emit(m)]))
            && t.s2c.sent == s.s2c.sent + [m]
  {
    assert L.Wire(json, m).Some?;
  }

  lemma FlowServer(json: Json, k: Kind, s: System, m: ServerStep)
    requires IsOutput(k) && FlowOf(k, s) && QueueOk(s)
    requires P.Control(s.server.task.conn, s.server.task.trace)
    ensures FlowOf(k, MoveServer(json, s, m))
  {
    if m.TakeOutput? {
      FlowTakeOutput(json, k, s);
    } else {
      var o := ServerOffer(json, s, m);
      if o.Offer? {
        FlowOffered(json, k, s, m, o.world, o.input);
      }
    }
  }

  lemma FlowOffered(json: Json, k: Kind, s: System, m: ServerStep, world: System, i: S.Input)
    requires IsOutput(k) && FlowOf(k, s) && !m.TakeOutput?
    requires P.Control(s.server.task.conn, s.server.task.trace)
    requires ServerOffer(json, s, m) == Offer(world, i)
    ensures FlowOf(k, React(json, world, i))
  {
    FlowOffer(json, k, s, m);
    FlowReact(json, k, world, i);
  }

  lemma FlowOffer(json: Json, k: Kind, s: System, m: ServerStep)
    requires FlowOf(k, s) && !m.TakeOutput?
    ensures var o := ServerOffer(json, s, m);
            o.Offer? ==>
              && FlowOf(k, o.world)
              && o.world.server.task == s.server.task
              && !o.input.Output?
              && (o.input.OutputClosed? ==> o.world.server.queue == [] && !PumpOf(k, o.world.server).live)
  {
    OfferSame(json, s, m);
  }

  lemma FlowNext(json: Json, k: Kind, s: System, st: Step)
    requires IsOutput(k) && FlowOf(k, s) && QueueOk(s) && ChildOk(s)
    requires P.Control(s.server.task.conn, s.server.task.trace)
    ensures FlowOf(k, Next(json, s, st))
  {
    match st
    case OutPump(_) => FlowPump(json, k, s, st);
    case ErrPump(_) => FlowPump(json, k, s, st);
    case OnServer(m) => if s.serverUp { FlowServer(json, k, s, m); }
    case OnClient(m) => ClientFrame(json, s, m);
    case _ =>
  }

  /** What the child wrote was read or is still in the pipe. */
  predicate Piped(p: Pump) {
    p.written == p.read + p.pipe
  }

  lemma PipedPump(p: Pump, queue: seq<Message>, receiver: bool, stdout: bool, st: PumpStep)
    requires Piped(p)
    ensures Piped(MovePump(p, queue, receiver, stdout, st).0)
  {
    match st
    case ChildWrites(bytes) => Framing.Assoc(p.read, p.pipe, bytes);
    case ReadChunk(n) =>
      if n <= |p.pipe| {
        Framing.Assoc(p.read, p.pipe[..n], p.pipe[n..]);
        assert p.pipe[..n] + p.pipe[n..] == p.pipe;
      }
    case _ =>
  }

  ghost predicate PipedOk(s: System) {
    Piped(s.server.out) && Piped(s.server.err)
  }

  lemma PipedTook(json: Json, s: System, i: S.Input, e: S.Effect, d: S.Conn)
    requires PipedOk(s)
    ensures PipedOk(Took(json, s, i, e, d))
  {
  }

  lemma PipedServer(json: Json, s: System, m: ServerStep)
    requires PipedOk(s)
    ensures PipedOk(MoveServer(json, s, m))
  {
    var o := ServerOffer(json, s, m);
    if o.Offer? {
      OfferKeepsPumps(json, s, m);
      var r := S.React(o.world.server.task.conn, o.input);
      ReactIsTook(json, o.world, o.input);
      PipedTook(json, o.world, o.input, r.effect, r.conn);
    }
  }

  lemma OfferKeepsPumps(json: Json, s: System, m: ServerStep)
    ensures var o := ServerOffer(json, s, m);
            o.Offer? ==> o.world.server.out == s.server.out && o.world.server.err == s.server.err
  {
  }

  lemma PipedNext(json: Json, s: System, st: Step)
    requires PipedOk(s)
    ensures PipedOk(Next(json, s, st))
  {
    match st
    case OutPump(p) => PipedPump(s.server.out, s.server.queue, ReceiverAlive(s.server.task.conn.phase), true, p);
    case ErrPump(p) => PipedPump(s.server.err, s.server.queue, ReceiverAlive(s.server.task.conn.phase), false, p);
    case OnServer(m) => PipedServer(json, s, m);
    case OnClient(m) => ClientFrame(json, s, m);
    case _ =>
  }

  // ---------------------------------------------------------- child and exit

  /** The child's state follows the trace, and an `Exit` reported for it carries its status. */
  ghost predicate Exits(child: Child, c: S.Conn, tr: seq<S.Effect>, sent: seq<Message>) {
    && (child.NotStarted? <==> S.ChildStarted !in tr)
    && (c.phase.Reporting? && c.phase.report.Exit? ==> child.Reaped? && c.phase.report.exit == S.StatusExit(child.status))
    && (forall m <- sent :: m.Exit? && S.ChildStarted in tr ==>
          child.Reaped? && m.exit == S.StatusExit(child.status) && S.BridgeOver(true) in tr)
  }

  ghost predicate ExitOk(s: System) {
    Exits(s.server.child, s.server.task.conn, s.server.task.trace, s.s2c.sent)
  }

  lemma ExitSaid(child: Child, c: S.Conn, tr: seq<S.Effect>, sent: seq<Message>, m: Message, d: S.Conn)
    requires Exits(child, c, tr, sent) && P.Control(c, tr) && P.Edge(c, S.Emit(m), d)
    ensures Exits(child, d, tr + [S.Emit(m)], sent) && Exits(child, d, tr + [S.Emit(m)], sent + [m])
  {
    assert m.Exit? ==> c.phase.Reporting? || S.ChildStarted !in tr;
  }

  lemma ExitMove(child: Child, c: S.Conn, tr: seq<S.Effect>, sent: seq<Message>, e: S.Effect, d: S.Conn)
    requires Exits(child, c, tr, sent) && P.Edge(c, e, d) && !e.Emit? && e != S.ChildStarted
    requires e == S.Reap && d.phase.Reporting? && d.phase.report.Exit? ==>
               child.Reaped? && d.phase.report.exit == S.StatusExit(child.status)
    ensures Exits(child, d, P.Record(tr, e), sent)
  {
  }

  lemma ExitTook(json: Json, s: System, i: S.Input, e: S.Effect, d: S.Conn)
    requires ExitOk(s)
    requires P.Control(s.server.task.conn, s.server.task.trace) && P.Edge(s.server.task.conn, e, d)
    requires e == S.ChildStarted ==> s.s2c.sent == []
    requires e == S.Reap && d.phase.Reporting? && d.phase.report.Exit? ==>
               s.server.child.Reaped? && d.phase.report.exit == S.StatusExit(s.server.child.status)
    ensures ExitOk(Took(json, s, i, e, d))
  {
    var child, c, tr, sent := s.server.child, s.server.task.conn, s.server.task.trace, s.s2c.sent;
    if e.Emit? {
      ExitSaid(child, c, tr, sent, e.m, d);
    } else if e != S.ChildStarted {
      ExitMove(child, c, tr, sent, e, d);
    }
  }

  lemma StartSaysNothing(json: Json, s: System, i: S.Input)
    requires Spoken(json, s)
    ensures S.React(s.server.task.conn, i).effect == S.ChildStarted ==> s.s2c.sent == []
  {
    OnlyLaunchStarts(s.server.task.conn, i);
    if s.server.task.conn.phase.Launching? {
      assert S.Emits(s.server.task.trace) == [];
    }
  }

  lemma OnlyLaunchStarts(c: S.Conn, i: S.Input)
    ensures S.React(c, i).effect == S.ChildStarted ==> c.phase.Launching?
  {
  }

  lemma ReportIsStatus(s: System, i: S.Input)
    requires i.WaitDone? && i.status.Ok? ==> s.server.child == Reaped(i.status.value)
    ensures var r := S.React(s.server.task.conn, i);
            r.effect == S.Reap && r.conn.phase.Reporting? && r.conn.phase.report.Exit? ==>
              s.server.child.Reaped? && r.conn.phase.report.exit == S.StatusExit(s.server.child.status)
  {
  }

  lemma ExitReact(json: Json, s: System, i: S.Input)
    requires ExitOk(s) && Spoken(json, s) && P.FromPumps(i)
    requires i.WaitDone? && i.status.Ok? ==> s.server.child == Reaped(i.status.value)
    ensures ExitOk(React(json, s, i))
  {
    var r := S.React(s.server.task.conn, i);
    P.ReactIsEdge(s.server.task.conn, i);
    ReactIsTook(json, s, i);
    StartSaysNothing(json, s, i);
    ReportIsStatus(s, i);
    ExitTook(json, s, i, r.effect, r.conn);
  }

  lemma OfferKeepsExit(json: Json, s: System, m: ServerStep)
    requires ExitOk(s) && Spoken(json, s) && QueueOk(s)
    ensures var o := ServerOffer(json, s, m);
            o.Offer? ==>
              && ExitOk(o.world)
              && Spoken(json, o.world)
              && (o.input.WaitDone? && o.input.status.Ok? ==> o.world.server.child == Reaped(o.input.status.value))
  {
  }

  lemma ExitServer(json: Json, s: System, m: ServerStep)
    requires ExitOk(s) && Spoken(json, s) && QueueOk(s)
    ensures ExitOk(MoveServer(json, s, m))
  {
    var o := ServerOffer(json, s, m);
    if o.Offer? {
      OfferKeepsExit(json, s, m);
      OfferIsFromPumps(json, s, m);
      ExitReact(json, o.world, o.input);
    }
  }

  lemma ExitNext(json: Json, s: System, st: Step)
    requires ExitOk(s) && Spoken(json, s) && QueueOk(s)
    ensures ExitOk(Next(json, s, st))
  {
    match st
    case OnServer(m) => if s.serverUp { ExitServer(json, s, m); }
    case OnClient(m) => ClientFrame(json, s, m);
    case _ =>
  }
}
