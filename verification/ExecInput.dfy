/** The client-to-server half of an exec connection: host stdin and relayed signals, from the host
    to the child. */
module ExecInput {
  import opened Wrappers
  import opened Protocol
  import Framing
  import L = Link
  import S = ServerConnection
  import P = ServerProtocol
  import C = ClientSession
  import opened ExecConnection
  import opened ExecSafety

  // ------------------------------------------------------------- the client

  function QueuedBytes(q: seq<Option<seq<byte>>>): seq<byte> {
    if q == [] then []
    else QueuedBytes(q[..|q| - 1]) + match q[|q| - 1] case Some(b) => b case None => []
  }

  lemma QueuedSnoc(q: seq<Option<seq<byte>>>, x: Option<seq<byte>>)
    ensures QueuedBytes(q + [x]) == QueuedBytes(q) + match x case Some(b) => b case None => []
  {
    assert (q + [x])[..|q|] == q;
  }

  lemma {:induction false} QueuedCons(q: seq<Option<seq<byte>>>)
    requires q != []
    ensures QueuedBytes(q) == (match q[0] case Some(b) => b case None => []) + QueuedBytes(q[1..])
    decreases |q|
  {
    var front, last := q[..|q| - 1], q[|q| - 1];
    var lastBytes := match last case Some(b) => b case None => [];
    var firstBytes := match q[0] case Some(b) => b case None => [];
    if |q| == 1 {
      assert front == [] && q[1..] == [];
      assert [] + lastBytes == lastBytes && firstBytes + [] == firstBytes;
    } else {
      QueuedCons(front);
      assert q[1..] == front[1..] + [last];
      QueuedSnoc(front[1..], last);
      Framing.Assoc(firstBytes, QueuedBytes(front[1..]), lastBytes);
    }
  }

  ghost predicate EofLast(sent: seq<Message>) {
    forall i, j :: 0 <= i < j < |sent| && sent[i] == Stdin([]) ==> !sent[j].Stdin?
  }

  /** One request first, then only stdin and signals; nothing of stdin after the empty frame. */
  ghost predicate ClientShape(sent: seq<Message>) {
    && (sent != [] ==> sent[0].Run?)
    && (forall i :: 0 < i < |sent| ==> sent[i].Stdin? || sent[i].Signal?)
    && EofLast(sent)
  }

  lemma ShapeSnoc(sent: seq<Message>, m: Message)
    requires ClientShape(sent) && sent != []
    requires m.Signal? || (m.Stdin? && Stdin([]) !in sent)
    ensures ClientShape(sent + [m])
  {
  }

  /** Data chunks, and the end marker at the very end once the pump is done. */
  ghost predicate QueueShape(q: seq<Option<seq<byte>>>, live: bool) {
    forall i :: 0 <= i < |q| ==> if q[i].None? then i == |q| - 1 && !live else 0 < |q[i].value| <= BUFFER
  }

  lemma QueueShapeSnoc(q: seq<Option<seq<byte>>>, live: bool, b: seq<byte>)
    requires QueueShape(q, live) && None !in q
    ensures 0 < |b| <= BUFFER ==> QueueShape(q + [Some(b)], live)
    ensures QueueShape(q + [None], false)
  {
  }

  lemma QueueShapeTail(q: seq<Option<seq<byte>>>, live: bool)
    requires QueueShape(q, live) && q != []
    ensures QueueShape(q[1..], live)
    ensures q[0].None? ==> q[1..] == [] && !live
  {
    if q[0].None? {
      assert |q| == 1;
    }
  }

  /** Where the host's stdin bytes are: sent, queued, or held by the pump. */
  ghost predicate Account(over: bool, open: bool, h: Host, said: seq<byte>) {
    && said <= h.hostRead
    && (!over ==> h.hostRead == said + QueuedBytes(h.queue) + h.held)
    && (!h.live ==> h.held == [])
    && |h.held| <= BUFFER
    && QueueShape(h.queue, h.live)
    && (h.held != [] ==> None !in h.queue)
    && (!open ==> !h.live && h.queue == [] && said == h.hostRead)
  }

  ghost predicate AccountOf(h: Host, sent: seq<Message>) {
    Account(h.session.client.phase.Finished?, h.session.client.stdinOpen, h, Gather(InBytes, sent))
  }

  ghost predicate Marked(c: C.Client, sent: seq<Message>) {
    && ClientShape(sent)
    && (sent == [] ==> c.phase.Opening? || c.phase.Finished?)
    && (Stdin([]) in sent ==> !c.stdinOpen)
  }

  ghost predicate Relayed(h: Host, sent: seq<Message>) {
    Gather(Signals, sent) == Gather(Signals, h.session.sent)
  }

  ghost predicate Feeds(h: Host, sent: seq<Message>) {
    AccountOf(h, sent) && Marked(h.session.client, sent) && Relayed(h, sent)
  }

  ghost predicate HostOk(s: System) {
    && Feeds(s.host, s.c2s.sent)
    && (s.host.session.client.phase.Opening? ==> s.c2s.rejected || s.c2s.sent != [])
  }

  lemma AccountPump(over: bool, open: bool, h: Host, said: seq<byte>, st: StdinStep)
    requires Account(over, open, h, said) && over == h.session.client.phase.Finished?
    ensures Account(over, open, MoveStdin(h, st), said)
  {
    match st {
      case HostQueue =>
        QueuedSnoc(h.queue, Some(h.held));
        if h.held != [] { QueueShapeSnoc(h.queue, h.live, h.held); }
      case HostEof =>
        QueuedSnoc(h.queue, None);
        if h.live { LiveHasNoMark(h.queue); QueueShapeSnoc(h.queue, h.live, []); }
      case HostChunk(_) => if h.live { LiveHasNoMark(h.queue); }
      case SessionGone =>
    }
  }

  lemma LiveHasNoMark(q: seq<Option<seq<byte>>>)
    requires QueueShape(q, true)
    ensures None !in q
  {
  }

  lemma AccountChunk(h: Host, said: seq<byte>)
    requires Account(false, true, h, said) && h.queue != [] && h.queue[0].Some?
    ensures Account(false, true, h.(queue := h.queue[1..]), said + h.queue[0].value)
  {
    QueuedCons(h.queue);
    QueueShapeTail(h.queue, h.live);
    var b, rest := h.queue[0].value, QueuedBytes(h.queue[1..]);
    assert said + (b + rest) + h.held == (said + b) + rest + h.held;
  }

  lemma AccountEnd(h: Host, said: seq<byte>)
    requires Account(false, true, h, said)
    requires if h.queue == [] then !h.live else h.queue[0].None?
    ensures Account(false, false, h.(queue := if h.queue == [] then [] else h.queue[1..]), said)
  {
    if h.queue != [] {
      QueuedCons(h.queue);
      QueueShapeTail(h.queue, h.live);
    }
    assert said + [] + [] == said;
  }

  lemma StreamsAreWired(json: Json, m: Message)
    requires Faithful(json)
    requires (m.Stdin? && |m.bytes| <= BUFFER) || m.Signal?
    ensures L.Wire(json, m).Some?
  {
    MessageRoundTrip(json, m);
    if m.Signal? {
      assert json.enc(Signal(m.signal)).Some?;
    }
  }

  /** The client's control graph, as far as stdin and signals go. */
  lemma ClientEdge(c: C.Client, i: C.Input)
    ensures var r := C.React(c, i);
            && (!r.effect.Transmit? ==>
                  && r.client.stdinOpen == c.stdinOpen
                  && (c.phase.Finished? ==> r.client == c)
                  && (r.client.phase.Opening? ==> r.client == c)
                  && (c.phase.Opening? && !r.client.phase.Opening? && !r.client.phase.Finished? ==> i == C.Sent(true)))
            && (r.effect.Transmit? ==>
                  && c.phase.Looping? && r.client.phase.Sending?
                  && (i.Chunk? || i.StdinEnd? || i.Raised?)
                  && (i.Chunk? ==> c.stdinOpen && r.effect.m == Stdin(i.bytes) && r.client.stdinOpen)
                  && (i.StdinEnd? ==> c.stdinOpen && r.effect.m == Stdin([]) && !r.client.stdinOpen)
                  && (i.Raised? ==> r.effect.m == Signal(i.signal) && r.client.stdinOpen == c.stdinOpen))
  {
  }

  lemma StepParts(x: C.Session, i: C.Input)
    ensures var r := C.React(x.client, i);
            C.Step(x, i).client == r.client && C.Step(x, i).sent == if r.effect.Transmit? then x.sent + [r.effect.m] else x.sent
  {
  }

  lemma HostQuiet(json: Json, s: System, i: C.Input)
    requires HostOk(s) && !C.React(s.host.session.client, i).effect.Transmit?
    requires s.host.session.client.phase.Opening? && i == C.Sent(true) ==> !s.c2s.rejected
    ensures HostOk(ClientReact(json, s, i))
  {
    ClientEdge(s.host.session.client, i);
    StepParts(s.host.session, i);
  }

  /** What the transmitted message is, and what it took from the stdin channel. */
  ghost predicate Takes(h: Host, i: C.Input, queue: seq<Option<seq<byte>>>) {
    match i
    case Chunk(bytes) => h.queue != [] && h.queue[0] == Some(bytes) && queue == h.queue[1..]
    case StdinEnd => if h.queue == [] then !h.live && queue == [] else h.queue[0].None? && queue == h.queue[1..]
    case _ => queue == h.queue
  }

  /** One more message after those sent, in the books for signals and shape. */
  lemma MoreSent(h: Host, sent: seq<Message>, d: C.Client, m: Message)
    requires Marked(h.session.client, sent) && Relayed(h, sent) && sent != []
    requires m.Signal? || (m.Stdin? && Stdin([]) !in sent)
    requires d.stdinOpen == (h.session.client.stdinOpen && m != Stdin([]))
    ensures Marked(d, sent + [m])
    ensures Gather(Signals, sent + [m]) == Gather(Signals, h.session.sent + [m])
    ensures Gather(InBytes, sent + [m]) == Gather(InBytes, sent) + Part(InBytes, m)
  {
    GatherSnoc(InBytes, sent, m);
    GatherSnoc(Signals, sent, m);
    GatherSnoc(Signals, h.session.sent, m);
    ShapeSnoc(sent, m);
  }

  lemma AccountTransmit(h: Host, queue: seq<Option<seq<byte>>>, i: C.Input, said: seq<byte>)
    requires Account(false, h.session.client.stdinOpen, h, said)
    requires (i.Chunk? || i.StdinEnd? ==> h.session.client.stdinOpen) && Takes(h, i, queue)
    ensures var b := if i.Chunk? then i.bytes else [];
            && Account(false, h.session.client.stdinOpen && !i.StdinEnd?, h.(queue := queue), said + b)
            && (i.Chunk? ==> 0 < |b| <= BUFFER)
  {
    assert said + [] == said;
    if i.Chunk? {
      AccountChunk(h, said);
    } else if i.StdinEnd? {
      AccountEnd(h, said);
    }
  }

  lemma FeedsTransmit(h: Host, queue: seq<Option<seq<byte>>>, sent: seq<Message>, i: C.Input)
    requires Feeds(h, sent) && C.React(h.session.client, i).effect.Transmit? && Takes(h, i, queue)
    ensures var m := C.React(h.session.client, i).effect.m;
            && Feeds(h.(queue := queue, session := C.Step(h.session, i)), sent + [m])
            && (m.Signal? || (m.Stdin? && |m.bytes| <= BUFFER))
  {
    var m := C.React(h.session.client, i).effect.m;
    ClientEdge(h.session.client, i);
    StepParts(h.session, i);
    AccountTransmit(h, queue, i, Gather(InBytes, sent));
    MoreSent(h, sent, C.React(h.session.client, i).client, m);
  }

  lemma HostTransmits(json: Json, s: System, i: C.Input, queue: seq<Option<seq<byte>>>)
    requires Faithful(json) && HostOk(s) && C.React(s.host.session.client, i).effect.Transmit?
    requires Takes(s.host, i, queue)
    ensures HostOk(ClientReact(json, s.(host := s.host.(queue := queue)), i))
  {
    FeedsTransmit(s.host, queue, s.c2s.sent, i);
    ClientEdge(s.host.session.client, i);
    StepParts(s.host.session, i);
    StreamsAreWired(json, C.React(s.host.session.client, i).effect.m);
  }

  lemma HostClient(json: Json, s: System, m: ClientStep)
    requires Faithful(json) && HostOk(s)
    ensures HostOk(MoveClient(json, s, m))
  {
    var o := ClientOffer(json, s, m);
    if o.Offer? {
      ClientOfferHost(json, s, m);
      if C.React(s.host.session.client, o.input).effect.Transmit? {
        ClientEdge(s.host.session.client, o.input);
        HostTransmits(json, o.world.(host := s.host), o.input, o.world.host.queue);
      } else {
        HostQuiet(json, o.world, o.input);
      }
    }
  }

  /** What an offer to the client may have taken from the stdin channel. */
  lemma ClientOfferHost(json: Json, s: System, m: ClientStep)
    requires HostOk(s)
    ensures var o := ClientOffer(json, s, m);
            o.Offer? ==>
              && o.world.c2s == s.c2s
              && o.world.host == s.host.(queue := o.world.host.queue)
              && (o.input == C.Sent(true) ==> !s.c2s.rejected)
              && Takes(s.host, o.input, o.world.host.queue)
              && (o.input.Chunk? || o.input.StdinEnd? ==> C.React(s.host.session.client, o.input).effect.Transmit?)
  {
  }

  lemma HostServer(json: Json, s: System, m: ServerStep)
    requires HostOk(s)
    ensures HostOk(MoveServer(json, s, m))
  {
    ServerFrame(json, s, m);
    ServerKeepsRejected(json, s, m);
  }

  lemma ServerKeepsRejected(json: Json, s: System, m: ServerStep)
    ensures MoveServer(json, s, m).c2s.rejected == s.c2s.rejected
  {
    var o := ServerOffer(json, s, m);
    if o.Offer? {
      ReactFrame(json, o.world, o.input);
    }
  }

  lemma StdinPumpKeeps(h: Host, p: StdinStep)
    ensures MoveStdin(h, p).session == h.session
  {
  }

  lemma HostStdin(json: Json, s: System, p: StdinStep)
    requires HostOk(s)
    ensures HostOk(s.(host := MoveStdin(s.host, p)))
  {
    var h, c := s.host, s.host.session.client;
    AccountPump(c.phase.Finished?, c.stdinOpen, h, Gather(InBytes, s.c2s.sent), p);
    StdinPumpKeeps(h, p);
    SameBooks(h, MoveStdin(h, p), s.c2s.sent);
  }

  lemma SameBooks(h: Host, g: Host, sent: seq<Message>)
    requires Feeds(h, sent) && g.session == h.session && AccountOf(g, sent)
    ensures Feeds(g, sent)
  {
  }

  lemma HostElsewhere(json: Json, s: System, st: Step)
    requires !st.OnServer? && !st.OnClient? && !st.StdinPump?
    ensures var t := Next(json, s, st);
            t.host == s.host && t.c2s.sent == s.c2s.sent && t.c2s.rejected == s.c2s.rejected && t.c2s.got == s.c2s.got
  {
  }

  lemma HostNext(json: Json, s: System, st: Step)
    requires Faithful(json) && HostOk(s)
    ensures HostOk(Next(json, s, st))
  {
    match st
    case OnServer(m) => HostServer(json, s, m);
    case OnClient(m) => HostClient(json, s, m);
    case StdinPump(p) => HostStdin(json, s, p);
    case _ => HostElsewhere(json, s, st);
  }

  // ------------------------------------------------------------- the server

  /** Where the frames the server has taken went: signals delivered, stdin bytes written or still
      being written. */
  ghost predicate Serves(c: S.Conn, tr: seq<S.Effect>, v: Served, taken: seq<Message>) {
    var came := Gather(InBytes, taken);
    && v.delivered == Gather(Signals, taken)
    && v.childIn <= came
    && (if c.stdinOpen then v.childIn + v.feeding == came else v.feeding == [])
    && (!c.phase.Feeding? ==> v.feeding == [])
    && (c.phase.AwaitFirst? ==> taken == [])
    && (S.ChildStarted !in tr ==> !c.stdinOpen && came == [] && v.delivered == [])
  }

  datatype Served = Bytes(delivered: seq<byte>, childIn: seq<byte>, feeding: seq<byte>)

  function ServedBy(v: Server): Served {
    Bytes(v.delivered, v.childIn, v.feeding)
  }

  ghost predicate ServedOf(v: Server, taken: seq<Message>) {
    Serves(v.task.conn, v.task.trace, ServedBy(v), taken)
  }

  /** An empty frame that closed the open pipe came after every stdin byte. */
  ghost predicate EofSeen(v: Server, sent: seq<Message>) {
    v.eofClosed ==>
      && Stdin([]) in sent && v.childIn == Gather(InBytes, sent)
      && !v.task.conn.stdinOpen && S.ChildStarted in v.task.trace
  }

  ghost predicate RelayOk(s: System) {
    && s.c2s.got <= |s.c2s.sent|
    && ServedOf(s.server, s.c2s.sent[..s.c2s.got])
    && EofSeen(s.server, s.c2s.sent)
  }

  /** After the empty frame no stdin bytes are left to take. */
  lemma NothingAfterEof(sent: seq<Message>, got: nat)
    requires EofLast(sent) && got < |sent| && sent[got] == Stdin([])
    ensures Gather(InBytes, sent[..got]) == Gather(InBytes, sent)
  {
    assert sent == sent[..got] + sent[got..];
    GatherAppend(InBytes, sent[..got], sent[got..]);
    NoStdin(sent[got..]);
    assert Gather(InBytes, sent[..got]) + [] == Gather(InBytes, sent[..got]);
  }

  lemma {:induction false} NoStdin(ms: seq<Message>)
    requires forall m <- ms :: m.Stdin? ==> m == Stdin([])
    ensures Gather(InBytes, ms) == []
    decreases |ms|
  {
    if ms != [] {
      NoStdin(ms[..|ms| - 1]);
    }
  }

  /** The task's graph, as far as the client's frames go. */
  ghost predicate FrameMove(c: S.Conn, m: Message, r: S.Reaction) {
    if c.phase.AwaitFirst? then
      && r.conn.stdinOpen == c.stdinOpen && !r.effect.Kill? && !r.effect.Feed? && r.effect != S.DropStdin
      && !r.conn.phase.Feeding? && r.effect != S.ChildStarted
      && (m.Run? ==> r.conn.phase.Launching?)
    else if m.Stdin? && m.bytes == [] then
      r == if c.stdinOpen then S.Reaction(c.(stdinOpen := false), S.DropStdin) else S.Stay(c)
    else if m.Stdin? then
      r == if c.stdinOpen then S.Reaction(c.(phase := S.Feeding), S.Feed(m.bytes)) else S.Stay(c)
    else if m.Signal? then r == S.Reaction(c, S.Kill(m.signal, S.Relayed))
    else r == S.Stay(c)
  }

  lemma FirstFrameMoves(c: S.Conn, m: Message)
    requires c.phase.AwaitFirst?
    ensures FrameMove(c, m, S.React(c, S.FrameIn(Ok(m))))
  {
    P.ReactIsEdge(c, S.FrameIn(Ok(m)));
  }

  lemma BridgeFrameMoves(c: S.Conn, m: Message)
    requires c.phase.Bridging? && c.clientWritesOpen
    ensures FrameMove(c, m, S.React(c, S.FrameIn(Ok(m))))
  {
  }

  lemma FrameMoves(c: S.Conn, m: Message)
    requires Polls(c)
    ensures FrameMove(c, m, S.React(c, S.FrameIn(Ok(m))))
  {
    if c.phase.AwaitFirst? { FirstFrameMoves(c, m); } else { BridgeFrameMoves(c, m); }
  }

  /** One frame taken: what the task does with it, in bytes. */
  function Serve(c: S.Conn, v: Served, m: Message): Served {
    if c.phase.AwaitFirst? then v
    else match m
      case Stdin(b) => if b != [] && c.stdinOpen then v.(feeding := b) else v
      case Signal(n) => v.(delivered := v.delivered + [n])
      case _ => v
  }

  lemma ServesFrame(c: S.Conn, tr: seq<S.Effect>, v: Served, taken: seq<Message>, m: Message, r: S.Reaction)
    requires Serves(c, tr, v, taken) && P.Control(c, tr) && Polls(c) && FrameMove(c, m, r)
    requires c.phase.AwaitFirst? ==> m.Run?
    ensures Serves(r.conn, P.Record(tr, r.effect), Serve(c, v, m), taken + [m])
  {
    TakenSnoc(taken, m);
    if c.phase.AwaitFirst? {
      ServesFirst(c, tr, v, taken, m, r);
    } else if m.Stdin? {
      ServesStdin(c, tr, v, taken, m, r);
    }
  }

  lemma TakenSnoc(taken: seq<Message>, m: Message)
    ensures Gather(InBytes, taken + [m]) == if m.Stdin? then Gather(InBytes, taken) + m.bytes else Gather(InBytes, taken)
    ensures Gather(Signals, taken + [m]) == if m.Signal? then Gather(Signals, taken) + [m.signal] else Gather(Signals, taken)
  {
    GatherSnoc(InBytes, taken, m);
    GatherSnoc(Signals, taken, m);
    assert Gather(InBytes, taken) + [] == Gather(InBytes, taken);
    assert Gather(Signals, taken) + [] == Gather(Signals, taken);
  }

  lemma ServesFirst(c: S.Conn, tr: seq<S.Effect>, v: Served, taken: seq<Message>, m: Message, r: S.Reaction)
    requires Serves(c, tr, v, taken) && P.Control(c, tr) && FrameMove(c, m, r)
    requires c.phase.AwaitFirst? && m.Run?
    ensures Serves(r.conn, P.Record(tr, r.effect), v, taken + [m])
  {
    TakenSnoc(taken, m);
  }

  lemma ServesStdin(c: S.Conn, tr: seq<S.Effect>, v: Served, taken: seq<Message>, m: Message, r: S.Reaction)
    requires Serves(c, tr, v, taken) && P.Control(c, tr) && Polls(c) && FrameMove(c, m, r)
    requires c.phase.Bridging? && m.Stdin?
    ensures Serves(r.conn, P.Record(tr, r.effect), Serve(c, v, m), taken + [m])
  {
    var came := Gather(InBytes, taken);
    TakenSnoc(taken, m);
    PrefixMore(v.childIn, came, m.bytes);
    assert v.childIn + [] == v.childIn;
    assert c.stdinOpen ==> v.childIn == came;
    assert m.bytes == [] ==> came + m.bytes == came;
  }

  lemma PrefixMore(a: seq<byte>, b: seq<byte>, c: seq<byte>)
    requires a <= b
    ensures a <= b + c
  {
  }

  lemma ServeIsTook(json: Json, s: System, m: Message, r: S.Reaction)
    requires Polls(s.server.task.conn) && FrameMove(s.server.task.conn, m, r)
    requires s.server.task.conn.phase.Bridging? ==> s.server.feeding == []
    ensures var t := Took(json, s, S.FrameIn(Ok(m)), r.effect, r.conn);
            && t.c2s == s.c2s
            && ServedBy(t.server) == Serve(s.server.task.conn, ServedBy(s.server), m)
            && t.server.task == S.Task(r.conn, P.Record(s.server.task.trace, r.effect))
            && t.server.eofClosed == (s.server.eofClosed || r.effect == S.DropStdin)
  {
  }

  lemma FrameCloses(c: S.Conn, m: Message, r: S.Reaction)
    requires Polls(c) && FrameMove(c, m, r)
    ensures r.effect == S.DropStdin ==> m == Stdin([]) && c.stdinOpen && !r.conn.stdinOpen && c.phase.Bridging?
    ensures !c.stdinOpen ==> !r.conn.stdinOpen
  {
  }

  lemma EofFrame(v: Server, sent: seq<Message>, got: nat, u: Server)
    requires got < |sent| && EofLast(sent) && EofSeen(v, sent) && ServedOf(v, sent[..got])
    requires u.childIn == v.childIn && (forall e <- v.task.trace :: e in u.task.trace)
    requires !v.task.conn.stdinOpen ==> !u.task.conn.stdinOpen
    requires u.eofClosed && !v.eofClosed ==>
               && sent[got] == Stdin([]) && v.task.conn.stdinOpen && !u.task.conn.stdinOpen
               && v.feeding == [] && S.ChildStarted in v.task.trace
    ensures EofSeen(u, sent)
  {
    if u.eofClosed && !v.eofClosed {
      NothingAfterEof(sent, got);
      assert v.childIn + [] == v.childIn;
    }
  }

  lemma RelayTook(json: Json, s: System, m: Message, r: S.Reaction)
    requires HostOk(s) && RelayOk(s) && P.Control(s.server.task.conn, s.server.task.trace)
    requires Polls(s.server.task.conn) && s.c2s.got < |s.c2s.sent| && m == s.c2s.sent[s.c2s.got]
    requires FrameMove(s.server.task.conn, m, r)
    ensures var t := Took(json, s, S.FrameIn(Ok(m)), r.effect, r.conn);
            ServedOf(t.server, s.c2s.sent[..s.c2s.got + 1]) && EofSeen(t.server, s.c2s.sent)
  {
    var sent, got, c := s.c2s.sent, s.c2s.got, s.server.task.conn;
    assert sent[..got + 1] == sent[..got] + [m];
    FrameCloses(c, m, r);
    ServesFrame(c, s.server.task.trace, ServedBy(s.server), sent[..got], m, r);
    ServeIsTook(json, s, m, r);
    EofFrame(s.server, sent, got, Took(json, s, S.FrameIn(Ok(m)), r.effect, r.conn).server);
  }

  lemma TookKeepsLink(json: Json, s: System, l: L.Link, i: S.Input, e: S.Effect, d: S.Conn)
    ensures Took(json, s.(c2s := l), i, e, d) == Took(json, s, i, e, d).(c2s := l)
  {
  }

  lemma RelayFrame(json: Json, s: System, m: Message)
    requires HostOk(s) && RelayOk(s) && P.Control(s.server.task.conn, s.server.task.trace)
    requires Polls(s.server.task.conn) && s.c2s.got < |s.c2s.sent| && m == s.c2s.sent[s.c2s.got]
    requires ScanFrame(s.c2s.rbuf).Got?
    ensures RelayOk(React(json, s.(c2s := L.Pop(s.c2s)), S.FrameIn(Ok(m))))
  {
    var i := S.FrameIn(Ok(m));
    var r := S.React(s.server.task.conn, i);
    FrameMoves(s.server.task.conn, m);
    RelayTook(json, s, m, r);
    ReactIsTook(json, s.(c2s := L.Pop(s.c2s)), i);
    TookKeepsLink(json, s, L.Pop(s.c2s), i, r.effect, r.conn);
  }

  lemma ServesMove(c: S.Conn, tr: seq<S.Effect>, v: Served, taken: seq<Message>, e: S.Effect, d: S.Conn)
    requires Serves(c, tr, v, taken) && P.Control(c, tr) && P.Edge(c, e, d)
    requires !(e.Kill? && e.why == S.Relayed) && !e.Feed?
    requires e == S.Quiet && c.phase.Feeding? && d.phase.Bridging? ==> v.feeding == []
    ensures Serves(d, P.Record(tr, e), if e == S.DropStdin then v.(feeding := []) else v, taken)
  {
  }

  /** Inputs other than a decoded frame relay nothing; only a completed write ends `Feeding` quietly. */
  lemma OtherInputs(c: S.Conn, i: S.Input)
    requires !(i.FrameIn? && i.r.Ok?)
    ensures var r := S.React(c, i);
            && !(r.effect.Kill? && r.effect.why == S.Relayed) && !r.effect.Feed?
            && (r.effect == S.Quiet && c.phase.Feeding? && r.conn.phase.Bridging? ==> i == S.WriteDone(true))
            && (!c.stdinOpen && r.conn.stdinOpen ==> c.phase.Launching?)
  {
  }

  lemma RelayOther(json: Json, s: System, i: S.Input)
    requires RelayOk(s) && P.Control(s.server.task.conn, s.server.task.trace)
    requires !(i.FrameIn? && i.r.Ok?) && P.FromPumps(i)
    requires i == S.WriteDone(true) ==> s.server.feeding == []
    ensures RelayOk(React(json, s, i))
  {
    var c, tr := s.server.task.conn, s.server.task.trace;
    var r := S.React(c, i);
    P.ReactIsEdge(c, i);
    OtherInputs(c, i);
    ServesMove(c, tr, ServedBy(s.server), s.c2s.sent[..s.c2s.got], r.effect, r.conn);
    ReactIsTook(json, s, i);
    TookRelay(json, s, i, r.effect, r.conn);
  }

  lemma TookRelay(json: Json, s: System, i: S.Input, e: S.Effect, d: S.Conn)
    requires !(e.Kill? && e.why == S.Relayed) && !e.Feed? && !(i.FrameIn? && i.r.Ok?)
    ensures var t := Took(json, s, i, e, d);
            && t.server.task == S.Task(d, P.Record(s.server.task.trace, e))
            && ServedBy(t.server) == (if e == S.DropStdin then ServedBy(s.server).(feeding := []) else ServedBy(s.server))
            && t.server.eofClosed == s.server.eofClosed
            && t.c2s == s.c2s
  {
  }

  lemma FeedRelay(s: System, n: nat)
    requires RelayOk(s) && P.Control(s.server.task.conn, s.server.task.trace)
    requires s.server.task.conn.phase.Feeding? && n <= |s.server.feeding|
    ensures var v := s.server;
            RelayOk(s.(server := v.(childIn := v.childIn + v.feeding[..n], feeding := v.feeding[n..])))
  {
    var v := s.server;
    assert v.feeding == v.feeding[..n] + v.feeding[n..];
    assert v.childIn + v.feeding == (v.childIn + v.feeding[..n]) + v.feeding[n..];
  }

  /** What an offer other than a decoded frame has changed before the task takes it. */
  lemma OfferRelay(json: Json, s: System, m: ServerStep)
    requires QueueOk(s)
    requires !(m.TakeFrame? && ScanFrame(s.c2s.rbuf).Got?)
    ensures var o := ServerOffer(json, s, m);
            o.Offer? ==>
              && o.world.c2s == s.c2s
              && o.world.server == s.server.(queue := o.world.server.queue, child := o.world.server.child)
              && !(o.input.FrameIn? && o.input.r.Ok?)
              && P.FromPumps(o.input)
              && (o.input == S.WriteDone(true) ==> s.server.feeding == [])
  {
  }

  lemma RelayTakeFrame(json: Json, s: System)
    requires Faithful(json) && L.Intact(json, s.c2s) && HostOk(s) && RelayOk(s)
    requires P.Control(s.server.task.conn, s.server.task.trace)
    requires ScanFrame(s.c2s.rbuf).Got?
    ensures RelayOk(MoveServer(json, s, TakeFrame))
  {
    L.Receive(json, s.c2s);
    if Polls(s.server.task.conn) {
      RelayFrame(json, s, s.c2s.sent[s.c2s.got]);
    }
  }

  lemma RelayServer(json: Json, s: System, m: ServerStep)
    requires Faithful(json) && L.Intact(json, s.c2s) && HostOk(s) && RelayOk(s) && QueueOk(s)
    requires P.Control(s.server.task.conn, s.server.task.trace)
    ensures RelayOk(MoveServer(json, s, m))
  {
    if m.FeedSome? {
      if s.server.task.conn.phase.Feeding? && m.size <= |s.server.feeding| {
        FeedRelay(s, m.size);
      }
    } else if m.TakeFrame? && ScanFrame(s.c2s.rbuf).Got? {
      RelayTakeFrame(json, s);
    } else {
      OfferRelay(json, s, m);
      var o := ServerOffer(json, s, m);
      if o.Offer? {
        RelayOther(json, o.world, o.input);
      }
    }
  }

  /** The client sends at most one message, and stdin only while its stdin is open. */
  lemma ClientSends(json: Json, s: System, m: ClientStep) returns (grew: bool, x: Message)
    ensures MoveClient(json, s, m).c2s.sent == if grew then s.c2s.sent + [x] else s.c2s.sent
    ensures grew ==> x.Signal? || (x.Stdin? && s.host.session.client.stdinOpen)
  {
    grew, x := false, ServerStopping;
    var o := ClientOffer(json, s, m);
    if o.Offer? {
      ClientOfferFrame(json, s, m);
      ClientEdge(s.host.session.client, o.input);
      var e := C.React(s.host.session.client, o.input).effect;
      if e.Transmit? && L.Wire(json, e.m).Some? {
        grew, x := true, e.m;
      }
    }
  }

  /** Sending more does not disturb what was taken, nor an end marker that was seen. */
  lemma RelayGrows(v: Server, sent: seq<Message>, got: nat, x: Message)
    requires got <= |sent| && ServedOf(v, sent[..got]) && EofSeen(v, sent)
    requires x.Signal? || (x.Stdin? && Stdin([]) !in sent)
    ensures ServedOf(v, (sent + [x])[..got]) && EofSeen(v, sent + [x])
  {
    assert (sent + [x])[..got] == sent[..got];
    GatherSnoc(InBytes, sent, x);
    assert Gather(InBytes, sent) + [] == Gather(InBytes, sent);
  }

  lemma RelayClient(json: Json, s: System, m: ClientStep)
    requires HostOk(s) && RelayOk(s)
    ensures RelayOk(MoveClient(json, s, m))
  {
    ClientFrame(json, s, m);
    var grew, x := ClientSends(json, s, m);
    if grew {
      RelayGrows(s.server, s.c2s.sent, s.c2s.got, x);
    }
  }

  lemma RelayElsewhere(json: Json, s: System, st: Step)
    requires RelayOk(s) && !st.OnServer? && !st.OnClient?
    ensures RelayOk(Next(json, s, st))
  {
    if !st.StdinPump? {
      HostElsewhere(json, s, st);
    }
  }

  lemma RelayNext(json: Json, s: System, st: Step)
    requires Faithful(json) && L.Intact(json, s.c2s) && HostOk(s) && RelayOk(s) && QueueOk(s)
    requires P.Control(s.server.task.conn, s.server.task.trace)
    ensures RelayOk(Next(json, s, st))
  {
    match st
    case OnServer(m) => RelayServer(json, s, m);
    case OnClient(m) => RelayClient(json, s, m);
    case _ => RelayElsewhere(json, s, st);
  }
}
