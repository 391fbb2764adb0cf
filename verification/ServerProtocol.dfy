/** What every run of a connection task keeps, whatever its inputs: the grammar of the frames it
    hands to `send`, and the order of signals, pipe writes and the wait. */
module ServerProtocol {
  import opened Wrappers
  import opened Protocol
  import opened ServerConnection

  predicate Streaming(m: Message) {
    m.Stdout? || m.Stderr? || m.ServerStopping?
  }

  predicate Terminal(m: Message) {
    m.Exit? || m.Error?
  }

  ghost predicate Streamed(ms: seq<Message>) {
    forall m <- ms :: Streaming(m)
  }

  function Notices(ms: seq<Message>): nat {
    if ms == [] then 0 else Notices(ms[..|ms| - 1]) + if ms[|ms| - 1].ServerStopping? then 1 else 0
  }

  /** Output and notices, closed by one terminal frame. */
  ghost predicate Terminated(ms: seq<Message>) {
    |ms| > 0 && Terminal(ms[|ms| - 1]) && Streamed(ms[..|ms| - 1])
  }

  /** Everything a connection may say: a version reply alone; or output frames with at most two
      `ServerStopping` among them, and after them at most one terminal frame, the last of all. */
  ghost predicate Grammar(ms: seq<Message>) {
    || ms == [ServerVersion(CURRENT_VERSION)]
    || ((Streamed(ms) || Terminated(ms)) && Notices(ms) <= 2)
  }

  /** A request was read: its acceptance is the first effect of the run. */
  predicate Requested(trace: seq<Effect>) {
    |trace| > 0 && trace[0].Accepted?
  }

  predicate BeforeChild(p: Phase) {
    p.AwaitFirst? || p.Launching? || p.Replying?
  }

  predicate InBridge(p: Phase) {
    p.Bridging? || p.Relaying? || p.Feeding? || p.Notifying? || p.Rejecting?
  }

  predicate Drained(p: Phase) {
    p.AwaitingChild? || p.NotifyingLate? || p.AwaitingChildLate? || p.Reporting? || p.Closing?
  }

  /** `rx.recv()` only yields what a pump wrapped. */
  predicate FromPumps(i: Input) {
    i.Output? ==> i.m.Stdout? || i.m.Stderr?
  }

  // ------------------------------------------------------- the control graph

  /** The edges of the task's control graph: from where, by which effect, to where. A reaction is
      always one of them; the proofs below need only the graph. */
  ghost predicate Edge(c: Conn, e: Effect, d: Conn) {
    || (e == Quiet && d == c)
    || match c.phase
       case AwaitFirst =>
         || (e.Accepted? && d == c.(phase := Launching(e.request), command := e.request.command))
         || (e.Emit? && (Terminal(e.m) || e.m == ServerStopping || e.m == ServerVersion(CURRENT_VERSION)) && d == c.(phase := Replying))
         || (e == Quiet && d == c.(phase := Done))
       case Launching(_) =>
         || (e.Emit? && Terminal(e.m) && d == c.(phase := Replying))
         || (e == ChildStarted && d == Conn(Bridging, c.command, true, true, true))
       case Replying => e == Quiet && d == c.(phase := Done)
       case Bridging =>
         || (e.Emit? && (e.m.Stdout? || e.m.Stderr?) && d == c.(phase := Relaying))
         || (e == Emit(ServerStopping) && c.stoppingOpen && d == c.(phase := Notifying, stoppingOpen := false))
         || (e.Emit? && e.m.Error? && d == c.(phase := Rejecting))
         || (e == BridgeOver(true) && d == c.(phase := AwaitingChild, stdinOpen := false))
         || (e.Feed? && c.stdinOpen && d == c.(phase := Feeding))
         || (e.Kill? && e.why == Relayed && d == c)
         || ((e == DropStdin || e == Quiet) && d == c.(stdinOpen := false, clientWritesOpen := d.clientWritesOpen))
       case Relaying =>
         || (e == Quiet && d == c.(phase := Bridging))
         || (e == BridgeOver(false) && d == c.(phase := Abandoning, stdinOpen := false))
       case Feeding =>
         || (e == Quiet && d == c.(phase := Bridging))
         || (e == DropStdin && d == c.(phase := Bridging, stdinOpen := false))
       case Notifying => e == Kill(SIGTERM, Shutdown) && d == c.(phase := Bridging)
       case Rejecting => e == BridgeOver(false) && d == c.(phase := Abandoning, stdinOpen := false)
       case Abandoning => e == Kill(SIGTERM, Disconnect) && d == c.(phase := Reaping)
       case Reaping => e == Reap && d == c.(phase := Done)
       case AwaitingChild =>
         || (e == Reap && d.phase.Reporting? && Terminal(d.phase.report) && d == c.(phase := d.phase))
         || (e == Emit(ServerStopping) && d == c.(phase := NotifyingLate))
       case NotifyingLate => e == Kill(SIGTERM, Shutdown) && d == c.(phase := AwaitingChildLate)
       case AwaitingChildLate => e == Reap && d.phase.Reporting? && Terminal(d.phase.report) && d == c.(phase := d.phase)
       case Reporting(report) => e == Emit(report) && d == c.(phase := Closing)
       case Closing => e == Quiet && d == c.(phase := Done)
       case Done => false
  }

  lemma ReactIsEdge(c: Conn, i: Input)
    requires FromPumps(i)
    ensures Edge(c, React(c, i).effect, React(c, i).conn)
  {
  }

  function Record(tr: seq<Effect>, e: Effect): seq<Effect> {
    if e == Quiet then tr else tr + [e]
  }

  ghost predicate Running(tr: seq<Effect>) {
    ChildStarted in tr && Requested(tr) && Reap !in tr
  }

  ghost predicate LastIs(tr: seq<Effect>, e: Effect) {
    |tr| > 0 && tr[|tr| - 1] == e
  }

  /** Which of the once-only effects have happened, phase by phase. */
  ghost predicate Control(c: Conn, tr: seq<Effect>) {
    && (c.stdinOpen ==> DropStdin !in tr)
    && (BridgeOver(true) in tr ==> BridgeOver(false) !in tr)
    && match c.phase
       case AwaitFirst => tr == []
       case Launching(q) => tr == [Accepted(q)] && c.command == q.command
       case Replying => ChildStarted !in tr && Reap !in tr && BridgeOver(true) !in tr && BridgeOver(false) !in tr
       case Bridging => Running(tr) && BridgeOver(true) !in tr && BridgeOver(false) !in tr
       case Relaying => Running(tr) && BridgeOver(true) !in tr && BridgeOver(false) !in tr
       case Feeding => Running(tr) && BridgeOver(true) !in tr && BridgeOver(false) !in tr && c.stdinOpen
       case Notifying => Running(tr) && BridgeOver(true) !in tr && BridgeOver(false) !in tr && LastIs(tr, Emit(ServerStopping))
       case Rejecting => Running(tr) && BridgeOver(true) !in tr && BridgeOver(false) !in tr
       case Abandoning => Running(tr) && LastIs(tr, BridgeOver(false))
       case Reaping => Running(tr) && LastIs(tr, Kill(SIGTERM, Disconnect)) && LastIs(tr[..|tr| - 1], BridgeOver(false))
       case AwaitingChild => Running(tr) && BridgeOver(true) in tr
       case NotifyingLate => Running(tr) && BridgeOver(true) in tr && LastIs(tr, Emit(ServerStopping))
       case AwaitingChildLate => Running(tr) && BridgeOver(true) in tr
       case Reporting(m) => ChildStarted in tr && Requested(tr) && BridgeOver(true) in tr && Reap in tr && Terminal(m)
       case Closing => ChildStarted in tr && Requested(tr) && BridgeOver(true) in tr && Reap in tr
       case Done => ChildStarted in tr ==> Reap in tr && Requested(tr)
  }

  lemma ControlQuiet(c: Conn, tr: seq<Effect>, d: Conn)
    requires Control(c, tr) && Edge(c, Quiet, d)
    ensures Control(d, tr)
  {
  }

  lemma ControlBridge(c: Conn, tr: seq<Effect>, e: Effect, d: Conn)
    requires Control(c, tr) && Edge(c, e, d) && e != Quiet && c.phase.Bridging?
    ensures Control(d, tr + [e])
  {
  }

  lemma ControlBefore(c: Conn, tr: seq<Effect>, e: Effect, d: Conn)
    requires Control(c, tr) && Edge(c, e, d) && e != Quiet && BeforeChild(c.phase)
    ensures Control(d, tr + [e])
  {
  }

  lemma ControlInner(c: Conn, tr: seq<Effect>, e: Effect, d: Conn)
    requires Control(c, tr) && Edge(c, e, d) && e != Quiet && InBridge(c.phase) && !c.phase.Bridging?
    ensures Control(d, tr + [e])
  {
  }

  lemma ControlAfter(c: Conn, tr: seq<Effect>, e: Effect, d: Conn)
    requires Control(c, tr) && Edge(c, e, d) && e != Quiet && !BeforeChild(c.phase) && !InBridge(c.phase)
    ensures Control(d, tr + [e])
  {
  }

  lemma ControlEdge(c: Conn, tr: seq<Effect>, e: Effect, d: Conn)
    requires Control(c, tr) && Edge(c, e, d)
    ensures Control(d, Record(tr, e))
  {
    if e == Quiet {
      ControlQuiet(c, tr, d);
    } else if c.phase.Bridging? {
      ControlBridge(c, tr, e, d);
    } else if InBridge(c.phase) {
      ControlInner(c, tr, e, d);
    } else if BeforeChild(c.phase) {
      ControlBefore(c, tr, e, d);
    } else {
      ControlAfter(c, tr, e, d);
    }
  }

  /** Where the signals, pipe writes and the wait stand to each other. */
  ghost predicate Discipline(tr: seq<Effect>) {
    // the child is waited for at most once, and never signalled after that
    && (forall i, j :: 0 <= i < |tr| && 0 <= j < |tr| && tr[i] == Reap && (tr[j].Kill? || tr[j] == Reap) ==> j <= i)
    // a shutdown TERM directly follows the attempt to send `ServerStopping`
    && (forall i :: 0 <= i < |tr| && tr[i].Kill? && tr[i].why == Shutdown ==>
          tr[i].signal == SIGTERM && i > 0 && tr[i - 1] == Emit(ServerStopping))
    // a bridge that failed is followed by the TERM, and the TERM by the wait
    && (forall i :: 0 <= i < |tr| - 1 && tr[i] == BridgeOver(false) ==> tr[i + 1] == Kill(SIGTERM, Disconnect))
    && (forall i :: 0 <= i < |tr| - 2 && tr[i] == BridgeOver(false) ==> tr[i + 2] == Reap && i + 3 == |tr|)
    // a dropped pipe is never written again
    && (forall i, j :: 0 <= i < |tr| && 0 <= j < |tr| && tr[i] == DropStdin && tr[j].Feed? ==> j < i)
  }

  /** What must hold of a trace before an effect is added to it. */
  ghost predicate MayAdd(tr: seq<Effect>, e: Effect) {
    var n := |tr|;
    && (e.Kill? || e == Reap ==> Reap !in tr)
    && (e.Kill? && e.why == Shutdown ==> e.signal == SIGTERM && n > 0 && tr[n - 1] == Emit(ServerStopping))
    && (e.Feed? ==> DropStdin !in tr)
    && (n > 0 && tr[n - 1] == BridgeOver(false) ==> e == Kill(SIGTERM, Disconnect))
    && (n > 1 && tr[n - 2] == BridgeOver(false) ==> e == Reap)
    && (forall i :: 0 <= i < n - 2 ==> tr[i] != BridgeOver(false))
  }

  lemma Allowed(c: Conn, tr: seq<Effect>, e: Effect, d: Conn)
    requires Control(c, tr) && Discipline(tr) && Edge(c, e, d) && e != Quiet
    ensures MayAdd(tr, e)
  {
  }

  lemma DisciplineEdge(c: Conn, tr: seq<Effect>, e: Effect, d: Conn)
    requires Control(c, tr) && Discipline(tr) && Edge(c, e, d)
    ensures Discipline(Record(tr, e))
  {
    if e != Quiet {
      Allowed(c, tr, e, d);
      DisciplineSnoc(tr, e);
    }
  }

  lemma DisciplineSnoc(tr: seq<Effect>, e: Effect)
    requires Discipline(tr) && MayAdd(tr, e)
    ensures Discipline(tr + [e])
  {
  }

  // --------------------------------------------------------- what is said

  lemma EmitsSnoc(tr: seq<Effect>, e: Effect)
    ensures Emits(tr + [e]) == if e.Emit? then Emits(tr) + [e.m] else Emits(tr)
  {
    assert (tr + [e])[..|tr|] == tr;
  }

  lemma NoticesSnoc(ms: seq<Message>, m: Message)
    ensures Notices(ms + [m]) == Notices(ms) + if m.ServerStopping? then 1 else 0
  {
    assert (ms + [m])[..|ms|] == ms;
  }

  ghost predicate Flowing(ms: seq<Message>, notices: nat) {
    Streamed(ms) && Notices(ms) <= notices
  }

  ghost predicate Closed(ms: seq<Message>, notices: nat) {
    Terminated(ms) && Notices(ms) <= notices
  }

  /** What has been said, phase by phase. */
  ghost predicate Speech(c: Conn, ms: seq<Message>, requested: bool) {
    match c.phase
    case AwaitFirst => ms == [] && !requested
    case Launching(_) => ms == [] && requested
    case Replying => |ms| == 1 && (Terminal(ms[0]) || (!requested && (ms[0] == ServerStopping || ms[0] == ServerVersion(CURRENT_VERSION))))
    case Bridging => requested && Flowing(ms, if c.stoppingOpen then 0 else 1)
    case Relaying => requested && Flowing(ms, if c.stoppingOpen then 0 else 1)
    case Feeding => requested && Flowing(ms, if c.stoppingOpen then 0 else 1)
    case Notifying => requested && Flowing(ms, 1) && !c.stoppingOpen
    case Rejecting => requested && Closed(ms, 1)
    case Abandoning => requested && (Flowing(ms, 1) || Closed(ms, 1))
    case Reaping => requested && (Flowing(ms, 1) || Closed(ms, 1))
    case AwaitingChild => requested && Flowing(ms, 1)
    case NotifyingLate => requested && Flowing(ms, 2)
    case AwaitingChildLate => requested && Flowing(ms, 2)
    case Reporting(m) => requested && Flowing(ms, 2) && Terminal(m)
    case Closing => requested && Closed(ms, 2)
    case Done => Grammar(ms) && (if requested then ServerVersion(CURRENT_VERSION) !in ms else |ms| <= 1)
  }

  lemma AddStreaming(ms: seq<Message>, m: Message, notices: nat)
    requires Flowing(ms, notices) && Streaming(m)
    ensures Flowing(ms + [m], notices + if m.ServerStopping? then 1 else 0)
  {
    NoticesSnoc(ms, m);
  }

  lemma AddTerminal(ms: seq<Message>, m: Message, notices: nat)
    requires Flowing(ms, notices) && Terminal(m)
    ensures Closed(ms + [m], notices)
  {
    NoticesSnoc(ms, m);
    assert (ms + [m])[..|ms|] == ms;
  }

  lemma SaidNothingInBridge(c: Conn, e: Effect, d: Conn, ms: seq<Message>, requested: bool)
    requires Speech(c, ms, requested) && Edge(c, e, d) && !e.Emit? && InBridge(c.phase)
    ensures Speech(d, ms, requested || e.Accepted?)
  {
  }

  lemma SaidNothing(c: Conn, e: Effect, d: Conn, ms: seq<Message>, requested: bool)
    requires Speech(c, ms, requested) && Edge(c, e, d) && !e.Emit?
    ensures Speech(d, ms, requested || e.Accepted?)
  {
    NoVersion(ms);
    if c.phase.Replying? {
      OneFrame(ms);
    } else if InBridge(c.phase) {
      SaidNothingInBridge(c, e, d, ms, requested);
    }
  }

  lemma NoVersion(ms: seq<Message>)
    ensures Streamed(ms) || Terminated(ms) ==> ServerVersion(CURRENT_VERSION) !in ms
  {
    if Terminated(ms) {
      assert ms == ms[..|ms| - 1] + [ms[|ms| - 1]];
    }
  }

  lemma OneFrame(ms: seq<Message>)
    requires |ms| == 1
    requires Terminal(ms[0]) || ms[0] == ServerStopping || ms[0] == ServerVersion(CURRENT_VERSION)
    ensures Grammar(ms)
  {
    assert ms == [ms[0]] && ms[..0] == [];
  }

  lemma SaidFirst(c: Conn, m: Message, d: Conn, ms: seq<Message>, requested: bool)
    requires Speech(c, ms, requested) && Edge(c, Emit(m), d) && (c.phase.AwaitFirst? || c.phase.Launching?)
    ensures Speech(d, ms + [m], requested)
  {
    assert ms + [m] == [m];
  }

  lemma SaidInBridge(c: Conn, m: Message, d: Conn, ms: seq<Message>, requested: bool)
    requires Speech(c, ms, requested) && Edge(c, Emit(m), d) && c.phase.Bridging?
    ensures Speech(d, ms + [m], requested)
  {
    var n := if c.stoppingOpen then 0 else 1;
    if Streaming(m) { AddStreaming(ms, m, n); } else { AddTerminal(ms, m, n); }
  }

  lemma Said(c: Conn, m: Message, d: Conn, ms: seq<Message>, requested: bool)
    requires Speech(c, ms, requested) && Edge(c, Emit(m), d)
    ensures Speech(d, ms + [m], requested)
  {
    match c.phase {
      case AwaitFirst => SaidFirst(c, m, d, ms, requested);
      case Launching(_) => SaidFirst(c, m, d, ms, requested);
      case Bridging => SaidInBridge(c, m, d, ms, requested);
      case AwaitingChild => AddStreaming(ms, m, 1);
      case Reporting(report) => AddTerminal(ms, report, 2);
      case _ =>
    }
  }

  lemma SpeechEdge(c: Conn, tr: seq<Effect>, e: Effect, d: Conn)
    requires Control(c, tr) && Edge(c, e, d) && Speech(c, Emits(tr), Requested(tr))
    ensures Speech(d, Emits(Record(tr, e)), Requested(Record(tr, e)))
  {
    EmitsSnoc(tr, e);
    RequestedSnoc(c, tr, e, d);
    if e.Emit? {
      Said(c, e.m, d, Emits(tr), Requested(tr));
    } else {
      SaidNothing(c, e, d, Emits(tr), Requested(tr));
    }
  }

  lemma RequestedSnoc(c: Conn, tr: seq<Effect>, e: Effect, d: Conn)
    requires Control(c, tr) && Edge(c, e, d) && Speech(c, Emits(tr), Requested(tr))
    ensures Requested(Record(tr, e)) == (Requested(tr) || e.Accepted?)
  {
  }

  // ------------------------------------------------------------ whole runs

  ghost predicate Good(t: Task) {
    && Control(t.conn, t.trace)
    && Discipline(t.trace)
    && Speech(t.conn, Emits(t.trace), Requested(t.trace))
  }

  lemma StepRecords(t: Task, i: Input)
    ensures Step(t, i) == Task(React(t.conn, i).conn, Record(t.trace, React(t.conn, i).effect))
  {
  }

  lemma GoodStep(t: Task, i: Input)
    requires Good(t) && FromPumps(i)
    ensures Good(Step(t, i))
  {
    var r := React(t.conn, i);
    StepRecords(t, i);
    ReactIsEdge(t.conn, i);
    ControlEdge(t.conn, t.trace, r.effect, r.conn);
    DisciplineEdge(t.conn, t.trace, r.effect, r.conn);
    SpeechEdge(t.conn, t.trace, r.effect, r.conn);
  }

  lemma {:induction false} RunsAreGood(t: Task, inputs: seq<Input>)
    requires Good(t) && forall i <- inputs :: FromPumps(i)
    ensures Good(Play(t, inputs))
    decreases |inputs|
  {
    if inputs != [] {
      GoodStep(t, inputs[0]);
      RunsAreGood(Step(t, inputs[0]), inputs[1..]);
    }
  }

  /** At every point of every run the frames said so far follow the grammar, and a connection that
      has read no request says at most one frame. */
  lemma FrameGrammar(inputs: seq<Input>)
    requires forall i <- inputs :: FromPumps(i)
    ensures var t := Play(OPENED, inputs);
            && Grammar(Emits(t.trace))
            && (!Requested(t.trace) ==> |Emits(t.trace)| <= 1)
            && (Requested(t.trace) ==> ServerVersion(CURRENT_VERSION) !in Emits(t.trace))
  {
    OpenedIsGood();
    RunsAreGood(OPENED, inputs);
    var t := Play(OPENED, inputs);
    SpeechIsGrammar(t.conn, Emits(t.trace), Requested(t.trace));
  }

  lemma SpeechIsGrammar(c: Conn, ms: seq<Message>, requested: bool)
    requires Speech(c, ms, requested)
    ensures Grammar(ms)
    ensures !requested ==> |ms| <= 1
    ensures requested ==> ServerVersion(CURRENT_VERSION) !in ms
  {
    NoVersion(ms);
    if c.phase.Replying? {
      OneFrame(ms);
    }
  }

  /** The bridge gave up directly behind an output frame or notice it was sending: output was lost. */
  ghost predicate LostOutput(tr: seq<Effect>) {
    exists i :: 0 < i < |tr| && tr[i] == BridgeOver(false) && tr[i - 1].Emit? && Streaming(tr[i - 1].m)
  }

  /** The environment's side of it: the send of an output frame failed. */
  ghost predicate OutputSendFails(t: Task, inputs: seq<Input>)
    decreases |inputs|
  {
    inputs != [] &&
    ((t.conn.phase.Relaying? && inputs[0] == SendDone(false)) || OutputSendFails(Step(t, inputs[0]), inputs[1..]))
  }

  ghost predicate LastSaid(tr: seq<Effect>, streaming: bool) {
    |tr| > 0 && tr[|tr| - 1].Emit? && (if streaming then Streaming(tr[|tr| - 1].m) else Terminal(tr[|tr| - 1].m))
  }

  predicate Leaving(p: Phase) {
    p.Abandoning? || p.Reaping?
  }

  /** A run that is leaving, or over, has said its terminal frame exactly if no output was lost. */
  ghost predicate Told(c: Conn, tr: seq<Effect>) {
    && (c.phase.Relaying? ==> LastSaid(tr, true))
    && (c.phase.Rejecting? ==> LastSaid(tr, false))
    && (Leaving(c.phase) || (c.phase.Done? && Requested(tr)) ==> (Terminated(Emits(tr)) <==> !LostOutput(tr)))
    && (!Leaving(c.phase) && !c.phase.Done? ==> BridgeOver(false) !in tr)
  }

  lemma LossSnoc(tr: seq<Effect>, e: Effect)
    ensures LostOutput(tr + [e]) <==> LostOutput(tr) || (e == BridgeOver(false) && LastSaid(tr, true))
  {
    var u := tr + [e];
    assert forall i :: 0 <= i < |tr| ==> u[i] == tr[i];
    if LostOutput(tr) {
      var i :| 0 < i < |tr| && tr[i] == BridgeOver(false) && tr[i - 1].Emit? && Streaming(tr[i - 1].m);
      assert u[i] == BridgeOver(false) && u[i - 1].Emit?;
    }
    if e == BridgeOver(false) && LastSaid(tr, true) {
      assert u[|tr|] == BridgeOver(false) && u[|tr| - 1].Emit?;
    }
  }

  lemma NoLossWithout(tr: seq<Effect>)
    requires BridgeOver(false) !in tr
    ensures !LostOutput(tr)
  {
  }

  lemma StreamedIsOpen(ms: seq<Message>)
    requires Streamed(ms)
    ensures !Terminated(ms)
  {
    if ms != [] {
      assert ms[|ms| - 1] in ms;
    }
  }

  lemma ToldQuiet(c: Conn, tr: seq<Effect>, d: Conn)
    requires Control(c, tr) && Speech(c, Emits(tr), Requested(tr)) && Told(c, tr) && Edge(c, Quiet, d)
    ensures Told(d, tr)
  {
    NoLossIn(c, tr);
    if c.phase.Replying? && Requested(tr) {
      assert Emits(tr)[..0] == [];
    }
  }

  lemma NoLossIn(c: Conn, tr: seq<Effect>)
    requires Told(c, tr)
    ensures !Leaving(c.phase) && !c.phase.Done? ==> !LostOutput(tr)
  {
    if BridgeOver(false) !in tr {
      NoLossWithout(tr);
    }
  }

  lemma BridgeFails(c: Conn, tr: seq<Effect>, d: Conn)
    requires Speech(c, Emits(tr), Requested(tr)) && Told(c, tr) && Edge(c, BridgeOver(false), d)
    ensures Told(d, tr + [BridgeOver(false)])
  {
    NoLossIn(c, tr);
    LossSnoc(tr, BridgeOver(false));
    EmitsSnoc(tr, BridgeOver(false));
    if c.phase.Relaying? {
      StreamedIsOpen(Emits(tr));
    }
  }

  lemma LeavingMoves(c: Conn, e: Effect, d: Conn)
    requires Edge(c, e, d) && e != Quiet && e != BridgeOver(false)
    requires Leaving(d.phase) || d.phase.Done?
    ensures Leaving(c.phase) && !e.Emit?
  {
  }

  lemma ToldLeaving(c: Conn, tr: seq<Effect>, e: Effect, d: Conn)
    requires Told(c, tr) && Leaving(c.phase) && !e.Emit? && e != BridgeOver(false)
    requires Leaving(d.phase) || d.phase.Done?
    ensures Told(d, tr + [e])
  {
    LossSnoc(tr, e);
    EmitsSnoc(tr, e);
  }

  lemma ToldStaying(c: Conn, tr: seq<Effect>, e: Effect, d: Conn)
    requires Told(c, tr) && Edge(c, e, d) && e != Quiet
    requires !Leaving(d.phase) && !d.phase.Done?
    ensures Told(d, tr + [e])
  {
  }

  lemma ToldEdge(c: Conn, tr: seq<Effect>, e: Effect, d: Conn)
    requires Control(c, tr) && Speech(c, Emits(tr), Requested(tr)) && Told(c, tr) && Edge(c, e, d)
    ensures Told(d, Record(tr, e))
    ensures LostOutput(Record(tr, e)) <==> LostOutput(tr) || (c.phase.Relaying? && e == BridgeOver(false))
  {
    LossSnoc(tr, e);
    if e == Quiet {
      ToldQuiet(c, tr, d);
    } else if e == BridgeOver(false) {
      BridgeFails(c, tr, d);
    } else if Leaving(d.phase) || d.phase.Done? {
      LeavingMoves(c, e, d);
      ToldLeaving(c, tr, e, d);
    } else {
      ToldStaying(c, tr, e, d);
    }
  }

  lemma SendFailureLoses(c: Conn, i: Input)
    ensures (c.phase.Relaying? && React(c, i).effect == BridgeOver(false)) <==> (c.phase.Relaying? && i == SendDone(false))
  {
  }

  lemma {:induction false} ToldRuns(t: Task, inputs: seq<Input>)
    requires Good(t) && Told(t.conn, t.trace) && forall i <- inputs :: FromPumps(i)
    ensures var u := Play(t, inputs);
            && Told(u.conn, u.trace)
            && (LostOutput(u.trace) <==> LostOutput(t.trace) || OutputSendFails(t, inputs))
    decreases |inputs|
  {
    if inputs != [] {
      var r := React(t.conn, inputs[0]);
      StepRecords(t, inputs[0]);
      GoodStep(t, inputs[0]);
      ReactIsEdge(t.conn, inputs[0]);
      SendFailureLoses(t.conn, inputs[0]);
      ToldEdge(t.conn, t.trace, r.effect, r.conn);
      ToldRuns(Step(t, inputs[0]), inputs[1..]);
    }
  }

  /** A run that read a request and has returned said exactly one terminal frame, as its last, if and only
      if no output frame failed to be sent. A failed notice, or the failed send of the terminal frame
      itself, makes no difference to what was said. */
  lemma ExactlyOneTerminal(inputs: seq<Input>)
    requires forall i <- inputs :: FromPumps(i)
    ensures var t := Play(OPENED, inputs);
            && (LostOutput(t.trace) <==> OutputSendFails(OPENED, inputs))
            && (t.conn.phase.Done? && Requested(t.trace) ==>
                  (Terminated(Emits(t.trace)) <==> !OutputSendFails(OPENED, inputs)))
  {
    OpenedIsGood();
    ToldRuns(OPENED, inputs);
  }

  lemma PlayOne(t: Task, i: Input, rest: seq<Input>)
    ensures Play(t, [i] + rest) == Play(Step(t, i), rest)
  {
    assert ([i] + rest)[1..] == rest;
  }

  lemma Cons5<T>(a: T, b: T, c: T, d: T, e: T, rest: seq<T>)
    ensures [a, b, c, d, e] + rest == [a] + ([b] + ([c] + ([d] + ([e] + rest))))
  {
  }

  lemma PlayFive(t: Task, a: Input, b: Input, c: Input, d: Input, e: Input, rest: seq<Input>)
    ensures Play(t, [a, b, c, d, e] + rest) == Play(Step(Step(Step(Step(Step(t, a), b), c), d), e), rest)
  {
    Cons5(a, b, c, d, e, rest);
    var t1, r1 := Step(t, a), [b] + ([c] + ([d] + ([e] + rest)));
    PlayOne(t, a, r1);
    var t2, r2 := Step(t1, b), [c] + ([d] + ([e] + rest));
    PlayOne(t1, b, r2);
    var t3, r3 := Step(t2, c), [d] + ([e] + rest);
    PlayOne(t2, c, r3);
    PlayOne(t3, d, [e] + rest);
    PlayOne(Step(t3, d), e, rest);
  }

  /** A request whose child closed its pipes after the bridge announced a shutdown. */
  function ToldInBridge(q: Request): Task {
    Task(Conn(AwaitingChild, q.command, false, true, false),
         [Accepted(q), ChildStarted, Emit(ServerStopping), Kill(SIGTERM, Shutdown), BridgeOver(true)])
  }

  lemma NoticeInBridge(q: Request)
    requires forall entry <- q.env :: '=' in entry
    ensures Step(Step(Step(Step(Step(OPENED, FrameIn(Ok(Run(q)))), Launch(true, Spawned)), Stopping), SendDone(true)), OutputClosed)
            == ToldInBridge(q)
  {
    GoodEnv(q.env);
    var t := Step(Step(OPENED, FrameIn(Ok(Run(q)))), Launch(true, Spawned));
    assert t == Task(Conn(Bridging, q.command, true, true, true), [Accepted(q), ChildStarted]);
  }

  function ToldTwice(q: Request, e: ExitMsg): Task {
    Task(Conn(Done, q.command, false, true, false),
         ToldInBridge(q).trace + [Emit(ServerStopping), Kill(SIGTERM, Shutdown), Reap, Emit(Exit(e))])
  }

  lemma NoticeInWait(q: Request, code: int)
    ensures Step(Step(Step(Step(Step(ToldInBridge(q), Stopping), SendDone(true)), WaitDone(Ok(Exited(code)))), Proceed), SendDone(true))
            == ToldTwice(q, StatusExit(Exited(code)))
  {
    var e := Exit(StatusExit(Exited(code)));
    var tr := ToldInBridge(q).trace;
    var t := Step(Step(ToldInBridge(q), Stopping), SendDone(true));
    assert t == Task(Conn(AwaitingChildLate, q.command, false, true, false), tr + [Emit(ServerStopping), Kill(SIGTERM, Shutdown)]);
    var u := Step(Step(t, WaitDone(Ok(Exited(code)))), Proceed);
    assert u == Task(Conn(Closing, q.command, false, true, false),
                     tr + [Emit(ServerStopping), Kill(SIGTERM, Shutdown), Reap, Emit(e)]);
  }

  lemma EmitsTwice(q: Request, e: ExitMsg)
    ensures Emits(ToldTwice(q, e).trace) == [ServerStopping, ServerStopping, Exit(e)]
  {
    var a, b, c, d := Accepted(q), ChildStarted, Emit(ServerStopping), Kill(SIGTERM, Shutdown);
    EmitsSnoc([], a);
    EmitsSnoc([a], b);
    EmitsSnoc([a, b], c);
    EmitsSnoc([a, b, c], d);
    assert [] + [a] == [a] && [a] + [b] == [a, b] && [a, b] + [c] == [a, b, c] && [a, b, c] + [d] == [a, b, c, d];
    EmitsFive([a, b, c, d], BridgeOver(true), Emit(ServerStopping), Kill(SIGTERM, Shutdown), Reap, Emit(Exit(e)));
    assert [ServerStopping] + [ServerStopping] + [Exit(e)] == [ServerStopping, ServerStopping, Exit(e)];
    assert ToldTwice(q, e).trace
        == [a, b, c, d] + [BridgeOver(true), Emit(ServerStopping), Kill(SIGTERM, Shutdown), Reap, Emit(Exit(e))];
  }

  lemma Snoc5<T>(s: seq<T>, a: T, b: T, c: T, d: T, e: T)
    ensures s + [a, b, c, d, e] == s + [a, b] + [c, d] + [e]
  {
  }

  lemma EmitsFive(tr: seq<Effect>, a: Effect, b: Effect, c: Effect, d: Effect, e: Effect)
    requires !a.Emit? && b.Emit? && !c.Emit? && !d.Emit? && e.Emit?
    ensures Emits(tr + [a, b, c, d, e]) == Emits(tr) + [b.m] + [e.m]
  {
    Snoc5(tr, a, b, c, d, e);
    EmitsOne(tr, a, b);
    var u := tr + [a, b];
    EmitsOne(u, c, d);
    EmitsSnoc(u + [c, d], e);
  }

  lemma EmitsOne(tr: seq<Effect>, a: Effect, b: Effect)
    requires !a.Emit?
    ensures Emits(tr + [a, b]) == if b.Emit? then Emits(tr) + [b.m] else Emits(tr)
  {
    EmitsSnoc(tr, a);
    EmitsSnoc(tr + [a], b);
    assert tr + [a, b] == tr + [a] + [b];
  }

  /** A shutdown seen by the bridge, and seen again while the child is awaited. */
  function SeenTwice(q: Request, code: int): seq<Input> {
    [FrameIn(Ok(Run(q))), Launch(true, Spawned), Stopping, SendDone(true), OutputClosed]
    + [Stopping, SendDone(true), WaitDone(Ok(Exited(code))), Proceed, SendDone(true)]
  }

  lemma SeenTwiceEnds(q: Request, code: int)
    requires forall entry <- q.env :: '=' in entry
    ensures Play(OPENED, SeenTwice(q, code)) == ToldTwice(q, StatusExit(Exited(code)))
  {
    var last := [Stopping, SendDone(true), WaitDone(Ok(Exited(code))), Proceed, SendDone(true)];
    PlayFive(OPENED, FrameIn(Ok(Run(q))), Launch(true, Spawned), Stopping, SendDone(true), OutputClosed, last);
    NoticeInBridge(q);
    assert last + [] == last;
    PlayFive(ToldInBridge(q), last[0], last[1], last[2], last[3], last[4], []);
    NoticeInWait(q, code);
  }

  /** The bound of two notices in the grammar is met. */
  lemma TwoNotices(q: Request, code: int)
    requires forall entry <- q.env :: '=' in entry
    ensures var t := Play(OPENED, SeenTwice(q, code));
            && t.conn.phase.Done?
            && Emits(t.trace) == [ServerStopping, ServerStopping, Exit(StatusExit(Exited(code)))]
            && Notices(Emits(t.trace)) == 2
  {
    var e := Exit(StatusExit(Exited(code)));
    SeenTwiceEnds(q, code);
    EmitsTwice(q, StatusExit(Exited(code)));
    NoticesSnoc([], ServerStopping);
    NoticesSnoc([ServerStopping], ServerStopping);
    NoticesSnoc([ServerStopping, ServerStopping], e);
    assert [] + [ServerStopping] == [ServerStopping];
    assert [ServerStopping] + [ServerStopping] == [ServerStopping, ServerStopping];
    assert [ServerStopping, ServerStopping] + [e] == [ServerStopping, ServerStopping, e];
  }

  lemma {:induction false} GoodEnv(env: seq<string>)
    ensures FirstBadEntry(env).None? <==> forall entry <- env :: '=' in entry
  {
    if env != [] {
      GoodEnv(env[1..]);
      assert env == [env[0]] + env[1..];
    }
  }

  /** Every run: the child is waited for at most once and never signalled afterwards; a shutdown TERM
      directly follows the attempt to announce it; a failed bridge is followed by the TERM and then the
      wait; a dropped stdin pipe stays dropped. A run that started a child and returned did wait for it. */
  lemma ChildIsReaped(inputs: seq<Input>)
    requires forall i <- inputs :: FromPumps(i)
    ensures var t := Play(OPENED, inputs);
            && Discipline(t.trace)
            && (t.conn.phase.Done? && ChildStarted in t.trace ==> Reap in t.trace)
  {
    OpenedIsGood();
    RunsAreGood(OPENED, inputs);
    DoneIsReaped(Play(OPENED, inputs));
  }

  /** A `ServerStopping` that was the last effect is still being sent, or was the only thing said. */
  predicate MayHaveAnnounced(p: Phase) {
    p.Notifying? || p.NotifyingLate? || p.Replying? || p.Done?
  }

  ghost predicate Announced(c: Conn, tr: seq<Effect>) {
    && (LastIs(tr, Emit(ServerStopping)) ==> MayHaveAnnounced(c.phase))
    && forall i :: 0 <= i < |tr| - 1 && tr[i] == Emit(ServerStopping) ==> tr[i + 1] == Kill(SIGTERM, Shutdown)
  }

  lemma AnnouncedEdge(c: Conn, tr: seq<Effect>, e: Effect, d: Conn)
    requires Control(c, tr) && Announced(c, tr) && Edge(c, e, d)
    ensures Announced(d, Record(tr, e))
  {
    if e != Quiet && LastIs(tr, Emit(ServerStopping)) {
      TermFollows(c, e, d);
    }
  }

  lemma TermFollows(c: Conn, e: Effect, d: Conn)
    requires Edge(c, e, d) && e != Quiet && MayHaveAnnounced(c.phase)
    ensures e == Kill(SIGTERM, Shutdown)
  {
  }

  lemma {:induction false} AnnouncedRuns(t: Task, inputs: seq<Input>)
    requires Good(t) && Announced(t.conn, t.trace) && forall i <- inputs :: FromPumps(i)
    ensures Announced(Play(t, inputs).conn, Play(t, inputs).trace)
    decreases |inputs|
  {
    if inputs != [] {
      var r := React(t.conn, inputs[0]);
      StepRecords(t, inputs[0]);
      GoodStep(t, inputs[0]);
      ReactIsEdge(t.conn, inputs[0]);
      AnnouncedEdge(t.conn, t.trace, r.effect, r.conn);
      AnnouncedRuns(Step(t, inputs[0]), inputs[1..]);
    }
  }

  /** In every run an announced shutdown is followed at once by the TERM for the child's group: nothing
      else ever comes after a `ServerStopping`. */
  lemma AnnouncedThenTermed(inputs: seq<Input>)
    requires forall i <- inputs :: FromPumps(i)
    ensures var tr := Play(OPENED, inputs).trace;
            forall i :: 0 <= i < |tr| - 1 && tr[i] == Emit(ServerStopping) ==> tr[i + 1] == Kill(SIGTERM, Shutdown)
  {
    OpenedIsGood();
    AnnouncedRuns(OPENED, inputs);
  }

  // ------------------------------------------------ connections without a child

  lemma {:induction false} Muted(t: Task, rest: seq<Input>)
    requires t.conn.phase.Replying? || t.conn.phase.Done?
    ensures Play(t, rest).trace == t.trace
    decreases |rest|
  {
    if rest != [] {
      Muted(Step(t, rest[0]), rest[1..]);
    }
  }

  /** What a first event other than a request is answered with. */
  predicate Refusal(m: Message, i: Input) {
    if i == Stopping then m == ServerStopping
    else if i == FrameIn(Ok(RequestVersion)) then m == ServerVersion(CURRENT_VERSION)
    else if i.FrameIn? && i.r.Err? then m == Error(DecodeText(i.r.error))
    else
      && i.FrameIn?
      && m == Error("expected a `Request` or `RequestVersion` frame first, got `" + TypeName(i.r.value.Type()) + "`")
  }

  /** A connection whose first event is not a request says one thing, whatever happens later, and never
      starts a child: the version to a probe, the shutdown, nothing to a client that left, an error to
      everything else. */
  lemma WithoutRequest(i: Input, rest: seq<Input>)
    requires i.FrameEnd? || i.Stopping? || (i.FrameIn? && !(i.r.Ok? && i.r.value.Run?))
    ensures var tr := Play(OPENED, [i] + rest).trace;
            && ChildStarted !in tr
            && (i == FrameEnd ==> Emits(tr) == [])
            && (i != FrameEnd ==> |Emits(tr)| == 1 && Refusal(Emits(tr)[0], i))
  {
    PlayOne(OPENED, i, rest);
    OpeningReply(i);
    Muted(Step(OPENED, i), rest);
  }

  /** The first event's one reply. */
  lemma OpeningReply(i: Input)
    requires i.FrameEnd? || i.Stopping? || (i.FrameIn? && !(i.r.Ok? && i.r.value.Run?))
    ensures var t := Step(OPENED, i);
            && (t.conn.phase.Replying? || t.conn.phase.Done?)
            && ChildStarted !in t.trace
            && (i == FrameEnd ==> Emits(t.trace) == [])
            && (i != FrameEnd ==> |Emits(t.trace)| == 1 && Refusal(Emits(t.trace)[0], i))
  {
    var r := React(START, i);
    OpeningReaction(i);
    StepRecords(OPENED, i);
    EmitsSnoc([], r.effect);
    assert [] + [r.effect] == [r.effect];
  }

  lemma OpeningReaction(i: Input)
    requires i.FrameEnd? || i.Stopping? || (i.FrameIn? && !(i.r.Ok? && i.r.value.Run?))
    ensures var r := React(START, i);
            if i == FrameEnd then r == Go(START, Done, Quiet)
            else r.effect.Emit? && Refusal(r.effect.m, i) && r.conn == START.(phase := Replying)
  {
  }

  /** A request whose launch fails gets its one reply and nothing else, and no child. */
  lemma RefusedRequest(q: Request, isDir: bool, spawn: SpawnResult, rest: seq<Input>)
    requires LaunchReply(q, isDir, spawn).Some?
    ensures var tr := Play(OPENED, [FrameIn(Ok(Run(q))), Launch(isDir, spawn)] + rest).trace;
            ChildStarted !in tr && Emits(tr) == [LaunchReply(q, isDir, spawn).value]
  {
    var inputs := [FrameIn(Ok(Run(q))), Launch(isDir, spawn)] + rest;
    assert inputs[1..] == [Launch(isDir, spawn)] + rest && inputs[1..][1..] == rest;
    var reply := LaunchReply(q, isDir, spawn).value;
    var t := Step(Step(OPENED, inputs[0]), inputs[1]);
    LaunchRefused(q, isDir, spawn);
    Muted(t, rest);
    EmitsSnoc([Accepted(q)], Emit(reply));
    EmitsSnoc([], Accepted(q));
    assert [] + [Accepted(q)] == [Accepted(q)];
  }

  lemma LaunchRefused(q: Request, isDir: bool, spawn: SpawnResult)
    requires LaunchReply(q, isDir, spawn).Some?
    ensures var t := Step(Step(OPENED, FrameIn(Ok(Run(q)))), Launch(isDir, spawn));
            t.conn.phase.Replying? && t.trace == [Accepted(q)] + [Emit(LaunchReply(q, isDir, spawn).value)]
  {
    var t := Step(OPENED, FrameIn(Ok(Run(q))));
    assert t.conn.phase == Launching(q) && t.trace == [Accepted(q)];
  }

  lemma OpenedIsGood()
    ensures Good(OPENED) && Told(OPENED.conn, OPENED.trace)
  {
  }

  lemma DoneIsReaped(t: Task)
    requires Good(t)
    ensures t.conn.phase.Done? && ChildStarted in t.trace ==> Reap in t.trace
  {
  }
}
