/** What the environment did to a connection task, by where the task was when it did it; and that the
    task's state and trace are exactly what that calls for. */
module ServerRuns {
  import opened Wrappers
  import opened Protocol
  import opened ServerConnection
  import opened ServerProtocol

  /** The first event that ends the bridge. */
  datatype BridgeCause = AllOut | BadFrame(error: DecodeError) | SendFailed

  datatype History = History(
    request: Option<Request>,
    writesEnded: bool,                        // the client's write half was closed
    pipeEnded: bool,                          // ... or an empty stdin frame came, or a write to the pipe failed
    stopSeen: bool,                           // the bridge saw the shutdown
    stops: nat,                               // how often a `select!` saw it
    outputs: seq<Message>,                    // what the pumps delivered to the bridge
    feeds: seq<seq<byte>>,                    // stdin chunks that came while the pipe was open
    signals: seq<byte>,
    end: Option<BridgeCause>,
    wait: Option<Result<ExitStatus, string>>) // how the wait for a child with closed pipes ended

  const NOTHING := History(None, false, false, false, 0, [], [], [], None, None)

  function NoteFrame(h: History, r: Result<Message, DecodeError>): History {
    if h.writesEnded then h
    else if r.Err? then h.(end := Some(BadFrame(r.error)))
    else if r.value == Stdin([]) then h.(pipeEnded := true)
    else if r.value.Stdin? && !h.pipeEnded then h.(feeds := h.feeds + [r.value.bytes])
    else if r.value.Signal? then h.(signals := h.signals + [r.value.signal])
    else h
  }

  function NoteBridge(h: History, i: Input): History {
    if i.Output? then h.(outputs := h.outputs + [i.m])
    else if i.OutputClosed? then h.(end := Some(AllOut))
    else if i.FrameIn? then NoteFrame(h, i.r)
    else if i.FrameEnd? then h.(writesEnded := true, pipeEnded := true)
    else if i.Stopping? && !h.stopSeen then h.(stopSeen := true, stops := h.stops + 1)
    else h
  }

  /** One event, at a phase. */
  function Note(h: History, p: Phase, i: Input): History {
    if p.AwaitFirst? && i.Stopping? then h.(stops := h.stops + 1)
    else if p.AwaitFirst? && i.FrameIn? && i.r.Ok? && i.r.value.Run? then h.(request := Some(i.r.value.request))
    else if p.Bridging? then NoteBridge(h, i)
    else if p.Relaying? && i == SendDone(false) then h.(end := Some(SendFailed))
    else if p.Feeding? && i == WriteDone(false) then h.(pipeEnded := true)
    else if p.AwaitingChild? && i.Stopping? then h.(stops := h.stops + 1)
    else if (p.AwaitingChild? || p.AwaitingChildLate?) && i.WaitDone? then h.(wait := Some(i.status))
    else h
  }

  function NoteAll(h: History, t: Task, inputs: seq<Input>): History
    decreases |inputs|
  {
    if inputs == [] then h else NoteAll(Note(h, t.conn.phase, inputs[0]), Step(t, inputs[0]), inputs[1..])
  }

  function HistoryOf(inputs: seq<Input>): History {
    NoteAll(NOTHING, OPENED, inputs)
  }

  // ------------------------------------------------------- what a trace shows

  function Outs(tr: seq<Effect>): seq<Message> {
    if tr == [] then []
    else
      var front, e := Outs(tr[..|tr| - 1]), tr[|tr| - 1];
      if e.Emit? && (e.m.Stdout? || e.m.Stderr?) then front + [e.m] else front
  }

  function Feeds(tr: seq<Effect>): seq<seq<byte>> {
    if tr == [] then []
    else
      var front, e := Feeds(tr[..|tr| - 1]), tr[|tr| - 1];
      if e.Feed? then front + [e.bytes] else front
  }

  function Relays(tr: seq<Effect>): seq<byte> {
    if tr == [] then []
    else
      var front, e := Relays(tr[..|tr| - 1]), tr[|tr| - 1];
      if e.Kill? && e.why == Relayed then front + [e.signal] else front
  }

  lemma ShownSnoc(tr: seq<Effect>, e: Effect)
    ensures Outs(tr + [e]) == if e.Emit? && (e.m.Stdout? || e.m.Stderr?) then Outs(tr) + [e.m] else Outs(tr)
    ensures Feeds(tr + [e]) == if e.Feed? then Feeds(tr) + [e.bytes] else Feeds(tr)
    ensures Relays(tr + [e]) == if e.Kill? && e.why == Relayed then Relays(tr) + [e.signal] else Relays(tr)
  {
    assert (tr + [e])[..|tr|] == tr;
  }

  // ------------------------------------------------------------- the flags

  /** The task's three flags are what the history says. */
  predicate Flags(c: Conn, h: History) {
    && (h.writesEnded ==> h.pipeEnded)
    && (BeforeChild(c.phase) ==> !h.writesEnded && !h.pipeEnded && !h.stopSeen)
    && (InBridge(c.phase) ==>
          c.clientWritesOpen == !h.writesEnded && c.stdinOpen == !h.pipeEnded && c.stoppingOpen == !h.stopSeen)
  }

  lemma FlagsBridge(c: Conn, h: History, i: Input)
    requires Flags(c, h) && c.phase.Bridging?
    ensures Flags(React(c, i).conn, Note(h, c.phase, i))
  {
  }

  lemma FlagsInner(c: Conn, h: History, i: Input)
    requires Flags(c, h) && InBridge(c.phase) && !c.phase.Bridging?
    ensures Flags(React(c, i).conn, Note(h, c.phase, i))
  {
  }

  lemma FlagsOuter(c: Conn, h: History, i: Input)
    requires Flags(c, h) && !InBridge(c.phase)
    ensures Flags(React(c, i).conn, Note(h, c.phase, i))
  {
  }

  lemma FlagsStep(c: Conn, h: History, i: Input)
    requires Flags(c, h)
    ensures Flags(React(c, i).conn, Note(h, c.phase, i))
  {
    if c.phase.Bridging? {
      FlagsBridge(c, h, i);
    } else if InBridge(c.phase) {
      FlagsInner(c, h, i);
    } else {
      FlagsOuter(c, h, i);
    }
  }

  // ------------------------------------------------------------ the counts

  /** The effect a noted event calls for, as far as the counts go. */
  ghost predicate Matches(h: History, g: History, e: Effect) {
    && g.stops == h.stops + (if e == Emit(ServerStopping) then 1 else 0)
    && g.outputs == (if e.Emit? && (e.m.Stdout? || e.m.Stderr?) then h.outputs + [e.m] else h.outputs)
    && g.feeds == (if e.Feed? then h.feeds + [e.bytes] else h.feeds)
    && g.signals == (if e.Kill? && e.why == Relayed then h.signals + [e.signal] else h.signals)
  }

  lemma BridgeMatches(c: Conn, h: History, i: Input)
    requires Flags(c, h) && FromPumps(i) && c.phase.Bridging?
    ensures Matches(h, Note(h, c.phase, i), React(c, i).effect)
  {
  }

  lemma EarlyMatches(c: Conn, h: History, i: Input)
    requires BeforeChild(c.phase)
    ensures Matches(h, Note(h, c.phase, i), React(c, i).effect)
  {
  }

  lemma InnerMatches(c: Conn, h: History, i: Input)
    requires InBridge(c.phase) && !c.phase.Bridging?
    ensures Matches(h, Note(h, c.phase, i), React(c, i).effect)
  {
  }

  lemma LateMatches(c: Conn, h: History, i: Input)
    requires !BeforeChild(c.phase) && !InBridge(c.phase) && (c.phase.Reporting? ==> Terminal(c.phase.report))
    ensures Matches(h, Note(h, c.phase, i), React(c, i).effect)
  {
  }

  lemma EventMatches(c: Conn, tr: seq<Effect>, h: History, i: Input)
    requires Control(c, tr) && Flags(c, h) && FromPumps(i)
    ensures Matches(h, Note(h, c.phase, i), React(c, i).effect)
  {
    if c.phase.Bridging? {
      BridgeMatches(c, h, i);
    } else if InBridge(c.phase) {
      InnerMatches(c, h, i);
    } else if BeforeChild(c.phase) {
      EarlyMatches(c, h, i);
    } else {
      LateMatches(c, h, i);
    }
  }

  ghost predicate Counted(tr: seq<Effect>, h: History) {
    Notices(Emits(tr)) == h.stops && Outs(tr) == h.outputs && Feeds(tr) == h.feeds && Relays(tr) == h.signals
  }

  lemma CountedStep(tr: seq<Effect>, h: History, g: History, e: Effect)
    requires Counted(tr, h) && Matches(h, g, e)
    ensures Counted(Record(tr, e), g)
  {
    if e != Quiet {
      ShownSnoc(tr, e);
      EmitsSnoc(tr, e);
      if e.Emit? {
        NoticesSnoc(Emits(tr), e.m);
      }
    }
  }

  // ----------------------------------------------------------- the endings

  ghost predicate EndsWith(tr: seq<Effect>, tail: seq<Effect>) {
    |tail| <= |tr| && tr[|tr| - |tail|..] == tail
  }

  lemma EndsSnoc(tr: seq<Effect>, tail: seq<Effect>, e: Effect)
    requires EndsWith(tr, tail)
    ensures EndsWith(tr + [e], tail + [e])
  {
  }

  /** What is reported for a wait: the low byte of the code, or of the signal, or neither; or the error. */
  function Report(command: string, r: Result<ExitStatus, string>): Message {
    if r.Err? then Error("cannot wait for `" + command + "`: " + r.error)
    else if r.value.Exited? then Exit(ExitMsg(Some((r.value.code % 256) as byte), None))
    else if r.value.Signaled? then Exit(ExitMsg(None, Some((r.value.signal % 256) as byte)))
    else Exit(ExitMsg(None, None))
  }

  /** The last effects before the bridge's end was carried out, by its cause. */
  ghost predicate Cue(tr: seq<Effect>, end: BridgeCause, rest: seq<Effect>) {
    match end
    case AllOut => false
    case BadFrame(e) => EndsWith(tr, [Emit(Error(DecodeText(e))), BridgeOver(false)] + rest)
    case SendFailed =>
      |tr| > 1 + |rest| && EndsWith(tr, [BridgeOver(false)] + rest)
      && tr[|tr| - |rest| - 2].Emit? && Streaming(tr[|tr| - |rest| - 2].m)
  }

  ghost predicate Ended(c: Conn, tr: seq<Effect>, h: History) {
    && (BeforeChild(c.phase) || InBridge(c.phase) || Leaving(c.phase) ==> h.wait == None)
    && match c.phase
       case Relaying => h.end == None && LastSaid(tr, true)
       case Rejecting => h.end.Some? && h.end.value.BadFrame? && LastIs(tr, Emit(Error(DecodeText(h.end.value.error))))
       case Abandoning => h.end.Some? && Cue(tr, h.end.value, [])
       case Reaping => h.end.Some? && Cue(tr, h.end.value, [Kill(SIGTERM, Disconnect)])
       case AwaitingChild => h.end == Some(AllOut) && h.wait == None
       case NotifyingLate => h.end == Some(AllOut) && h.wait == None
       case AwaitingChildLate => h.end == Some(AllOut) && h.wait == None
       case Reporting(m) => h.end == Some(AllOut) && h.wait.Some? && m == Report(c.command, h.wait.value) && LastIs(tr, Reap)
       case Closing => h.end == Some(AllOut) && h.wait.Some? && EndsWith(tr, [Reap, Emit(Report(c.command, h.wait.value))])
       case Done => ChildStarted in tr ==> Finished(tr, c.command, h)
       case _ => h.end == None
  }

  /** The request the history knows is the one the task works on. */
  ghost predicate Known(c: Conn, tr: seq<Effect>, h: History) {
    Requested(tr) ==> h.request == Some(tr[0].request) && (!c.phase.AwaitFirst? ==> c.command == tr[0].request.command)
  }

  /** The three ways a run with a child ends. */
  ghost predicate Finished(tr: seq<Effect>, command: string, h: History) {
    && h.end.Some?
    && if h.end.value.AllOut? then
         BridgeOver(true) in tr && h.wait.Some? && EndsWith(tr, [Reap, Emit(Report(command, h.wait.value))])
       else Cue(tr, h.end.value, [Kill(SIGTERM, Disconnect), Reap])
  }

  lemma CueSnoc(tr: seq<Effect>, end: BridgeCause, rest: seq<Effect>, e: Effect)
    requires Cue(tr, end, rest)
    ensures Cue(tr + [e], end, rest + [e])
  {
    if end.BadFrame? {
      var tail := [Emit(Error(DecodeText(end.error))), BridgeOver(false)];
      EndsSnoc(tr, tail + rest, e);
      assert (tail + rest) + [e] == tail + (rest + [e]);
    } else {
      EndsSnoc(tr, [BridgeOver(false)] + rest, e);
      assert ([BridgeOver(false)] + rest) + [e] == [BridgeOver(false)] + (rest + [e]);
    }
  }

  ghost predicate EndedAfter(c: Conn, tr: seq<Effect>, h: History, i: Input) {
    var r := React(c, i);
    Ended(r.conn, Record(tr, r.effect), Note(h, c.phase, i))
  }

  lemma KnownStep(c: Conn, tr: seq<Effect>, h: History, i: Input)
    requires Control(c, tr) && Known(c, tr, h)
    ensures var r := React(c, i);
            Known(r.conn, Record(tr, r.effect), Note(h, c.phase, i))
  {
    if !c.phase.AwaitFirst? {
      RequestFixed(c, i);
    }
  }

  lemma RequestFixed(c: Conn, i: Input)
    requires !c.phase.AwaitFirst?
    ensures var r := React(c, i);
            r.conn.command == c.command && !r.effect.Accepted? && !r.conn.phase.AwaitFirst?
  {
    if InBridge(c.phase) {
      RequestFixedInBridge(c, i);
    } else if !BeforeChild(c.phase) {
      RequestFixedAfter(c, i);
    }
  }

  lemma RequestFixedInBridge(c: Conn, i: Input)
    requires InBridge(c.phase)
    ensures var r := React(c, i);
            r.conn.command == c.command && !r.effect.Accepted? && !r.conn.phase.AwaitFirst?
  {
  }

  lemma RequestFixedAfter(c: Conn, i: Input)
    requires !InBridge(c.phase) && !BeforeChild(c.phase)
    ensures var r := React(c, i);
            r.conn.command == c.command && !r.effect.Accepted? && !r.conn.phase.AwaitFirst?
  {
  }

  lemma EndedFirst(c: Conn, tr: seq<Effect>, h: History, i: Input)
    requires Ended(c, tr, h) && tr == [] && c.phase.AwaitFirst?
    ensures EndedAfter(c, tr, h, i)
  {
    FirstReaction(c, h, i);
  }

  lemma FirstReaction(c: Conn, h: History, i: Input)
    requires c.phase.AwaitFirst?
    ensures var r, g := React(c, i), Note(h, c.phase, i);
            && (BeforeChild(r.conn.phase) || (r.conn.phase.Done? && r.effect == Quiet))
            && r.effect != ChildStarted && g.end == h.end && g.wait == h.wait
  {
  }

  lemma EndedLaunching(c: Conn, tr: seq<Effect>, h: History, i: Input)
    requires Ended(c, tr, h) && c.phase.Launching?
    ensures EndedAfter(c, tr, h, i)
  {
  }

  lemma EndedReplying(c: Conn, tr: seq<Effect>, h: History, i: Input)
    requires Ended(c, tr, h) && c.phase.Replying? && ChildStarted !in tr
    ensures EndedAfter(c, tr, h, i)
  {
  }

  lemma EndedBridge(c: Conn, tr: seq<Effect>, h: History, i: Input)
    requires Control(c, tr) && Ended(c, tr, h) && Flags(c, h) && FromPumps(i) && c.phase.Bridging?
    ensures EndedAfter(c, tr, h, i)
  {
    if i.FrameIn? {
      EndedFrame(c, tr, h, i);
    } else {
      EndedOtherwise(c, tr, h, i);
    }
  }

  lemma EndedOtherwise(c: Conn, tr: seq<Effect>, h: History, i: Input)
    requires Control(c, tr) && Ended(c, tr, h) && FromPumps(i) && c.phase.Bridging? && !i.FrameIn?
    ensures EndedAfter(c, tr, h, i)
  {
  }

  lemma EndedFrame(c: Conn, tr: seq<Effect>, h: History, i: Input)
    requires Control(c, tr) && Ended(c, tr, h) && Flags(c, h) && c.phase.Bridging? && i.FrameIn?
    ensures EndedAfter(c, tr, h, i)
  {
  }

  lemma RejectedCue(tr: seq<Effect>, error: DecodeError)
    requires LastIs(tr, Emit(Error(DecodeText(error))))
    ensures Cue(tr + [BridgeOver(false)], BadFrame(error), [])
  {
    var last := tr[|tr| - 1];
    assert (tr + [BridgeOver(false)])[|tr| - 1..] == [last, BridgeOver(false)];
    assert [last, BridgeOver(false)] + [] == [last, BridgeOver(false)];
  }

  lemma LostCue(tr: seq<Effect>)
    requires LastSaid(tr, true)
    ensures Cue(tr + [BridgeOver(false)], SendFailed, [])
  {
    assert (tr + [BridgeOver(false)])[|tr|..] == [BridgeOver(false)];
    assert [BridgeOver(false)] + [] == [BridgeOver(false)];
  }

  lemma EndedRejecting(c: Conn, tr: seq<Effect>, h: History, i: Input)
    requires Ended(c, tr, h) && c.phase.Rejecting?
    ensures EndedAfter(c, tr, h, i)
  {
    if i.SendDone? {
      RejectedCue(tr, h.end.value.error);
      BridgeLeft(c, tr, h, i);
    } else {
      SendingWaits(c, i);
      Waited(c, tr, h, i);
    }
  }

  lemma BridgeLeft(c: Conn, tr: seq<Effect>, h: History, i: Input)
    requires c.phase.Rejecting? && i.SendDone? && h.end.Some? && h.wait == None
    requires Cue(tr + [BridgeOver(false)], h.end.value, [])
    ensures EndedAfter(c, tr, h, i)
  {
  }

  lemma Waited(c: Conn, tr: seq<Effect>, h: History, i: Input)
    requires Ended(c, tr, h) && c.phase.Rejecting? && React(c, i) == Stay(c)
    ensures EndedAfter(c, tr, h, i)
  {
    assert Note(h, c.phase, i) == h && Record(tr, Quiet) == tr;
  }

  lemma EndedRelaying(c: Conn, tr: seq<Effect>, h: History, i: Input)
    requires Ended(c, tr, h) && c.phase.Relaying?
    ensures EndedAfter(c, tr, h, i)
  {
    if i.SendDone? {
      LostCue(tr);
    } else {
      SendingWaits(c, i);
    }
  }

  lemma SendingWaits(c: Conn, i: Input)
    requires !i.SendDone? && (c.phase.Relaying? || c.phase.Rejecting?)
    ensures React(c, i) == Stay(c)
  {
  }

  lemma EndedInner(c: Conn, tr: seq<Effect>, h: History, i: Input)
    requires Ended(c, tr, h) && (c.phase.Feeding? || c.phase.Notifying?)
    ensures EndedAfter(c, tr, h, i)
  {
  }

  lemma TermedCue(tr: seq<Effect>, end: BridgeCause)
    requires Cue(tr, end, [])
    ensures Cue(tr + [Kill(SIGTERM, Disconnect)], end, [Kill(SIGTERM, Disconnect)])
  {
    CueSnoc(tr, end, [], Kill(SIGTERM, Disconnect));
    assert [] + [Kill(SIGTERM, Disconnect)] == [Kill(SIGTERM, Disconnect)];
  }

  lemma ReapedCue(tr: seq<Effect>, end: BridgeCause)
    requires Cue(tr, end, [Kill(SIGTERM, Disconnect)])
    ensures Cue(tr + [Reap], end, [Kill(SIGTERM, Disconnect), Reap])
  {
    CueSnoc(tr, end, [Kill(SIGTERM, Disconnect)], Reap);
    assert [Kill(SIGTERM, Disconnect)] + [Reap] == [Kill(SIGTERM, Disconnect), Reap];
  }

  lemma EndedAbandoning(c: Conn, tr: seq<Effect>, h: History, i: Input)
    requires Ended(c, tr, h) && c.phase.Abandoning?
    ensures EndedAfter(c, tr, h, i)
  {
    if i == Proceed {
      TermedCue(tr, h.end.value);
    }
  }

  lemma EndedReaping(c: Conn, tr: seq<Effect>, h: History, i: Input)
    requires Ended(c, tr, h) && c.phase.Reaping?
    ensures EndedAfter(c, tr, h, i)
  {
    if i.WaitDone? {
      ReapedCue(tr, h.end.value);
      assert React(c, i) == Go(c, Done, Reap);
    } else {
      assert React(c, i) == Stay(c);
    }
  }

  lemma ReportIs(command: string, r: Result<ExitStatus, string>)
    ensures WaitReport(command, r) == Report(command, r)
  {
  }

  lemma EndedWaiting(c: Conn, tr: seq<Effect>, h: History, i: Input)
    requires Ended(c, tr, h) && (c.phase.AwaitingChild? || c.phase.AwaitingChildLate?)
    ensures EndedAfter(c, tr, h, i)
  {
    if i.WaitDone? {
      ReportIs(c.command, i.status);
      assert React(c, i) == Reaction(c.(phase := Reporting(WaitReport(c.command, i.status))), Reap);
    } else {
      WaitsOn(c, i);
    }
  }

  lemma WaitsOn(c: Conn, i: Input)
    requires !i.WaitDone? && (c.phase.AwaitingChild? || c.phase.AwaitingChildLate?)
    ensures React(c, i) == Stay(c) || React(c, i) == Go(c, NotifyingLate, Emit(ServerStopping))
  {
  }

  lemma EndedNotifying(c: Conn, tr: seq<Effect>, h: History, i: Input)
    requires Ended(c, tr, h) && c.phase.NotifyingLate?
    ensures EndedAfter(c, tr, h, i)
  {
  }

  lemma EndedReporting(c: Conn, tr: seq<Effect>, h: History, i: Input)
    requires Ended(c, tr, h) && c.phase.Reporting?
    ensures EndedAfter(c, tr, h, i)
  {
    if i == Proceed {
      ReportedEnds(tr, c.phase.report);
      assert React(c, i) == Go(c, Closing, Emit(c.phase.report));
    } else {
      assert React(c, i) == Stay(c);
    }
  }

  lemma ReportedEnds(tr: seq<Effect>, m: Message)
    requires LastIs(tr, Reap)
    ensures EndsWith(tr + [Emit(m)], [Reap, Emit(m)])
  {
    assert (tr + [Emit(m)])[|tr| - 1..] == [Reap, Emit(m)];
  }

  lemma EndedClosing(c: Conn, tr: seq<Effect>, h: History, i: Input)
    requires Control(c, tr) && Ended(c, tr, h) && (c.phase.Closing? || c.phase.Done?)
    ensures EndedAfter(c, tr, h, i)
  {
  }

  lemma EndedStep(c: Conn, tr: seq<Effect>, h: History, i: Input)
    requires Control(c, tr) && Ended(c, tr, h) && Flags(c, h) && FromPumps(i)
    ensures EndedAfter(c, tr, h, i)
  {
    if c.phase.AwaitFirst? {
      EndedFirst(c, tr, h, i);
    } else if c.phase.Launching? {
      EndedLaunching(c, tr, h, i);
    } else if c.phase.Replying? {
      EndedReplying(c, tr, h, i);
    } else if c.phase.Bridging? {
      EndedBridge(c, tr, h, i);
    } else if c.phase.Rejecting? {
      EndedRejecting(c, tr, h, i);
    } else if c.phase.Relaying? {
      EndedRelaying(c, tr, h, i);
    } else if InBridge(c.phase) {
      EndedInner(c, tr, h, i);
    } else if c.phase.Abandoning? {
      EndedAbandoning(c, tr, h, i);
    } else if c.phase.Reaping? {
      EndedReaping(c, tr, h, i);
    } else if c.phase.NotifyingLate? {
      EndedNotifying(c, tr, h, i);
    } else if c.phase.Reporting? {
      EndedReporting(c, tr, h, i);
    } else if c.phase.AwaitingChild? || c.phase.AwaitingChildLate? {
      EndedWaiting(c, tr, h, i);
    } else {
      EndedClosing(c, tr, h, i);
    }
  }

  // ------------------------------------------------------------ whole runs

  /** Task and history of the same events. */
  ghost predicate Agree(t: Task, h: History) {
    && Good(t)
    && Flags(t.conn, h)
    && Counted(t.trace, h)
    && Known(t.conn, t.trace, h)
    && Ended(t.conn, t.trace, h)
  }

  lemma AgreeStep(t: Task, h: History, i: Input)
    requires Agree(t, h) && FromPumps(i)
    ensures Agree(Step(t, i), Note(h, t.conn.phase, i))
  {
    var c, tr := t.conn, t.trace;
    StepRecords(t, i);
    GoodStep(t, i);
    FlagsStep(c, h, i);
    EventMatches(c, tr, h, i);
    CountedStep(tr, h, Note(h, c.phase, i), React(c, i).effect);
    KnownStep(c, tr, h, i);
    EndedStep(c, tr, h, i);
  }

  lemma {:induction false} AgreeAlways(t: Task, h: History, inputs: seq<Input>)
    requires Agree(t, h) && forall i <- inputs :: FromPumps(i)
    ensures Agree(Play(t, inputs), NoteAll(h, t, inputs))
    decreases |inputs|
  {
    if inputs != [] {
      AgreeStep(t, h, inputs[0]);
      AgreeAlways(Step(t, inputs[0]), Note(h, t.conn.phase, inputs[0]), inputs[1..]);
    }
  }

  lemma RunAgrees(inputs: seq<Input>)
    requires forall i <- inputs :: FromPumps(i)
    ensures Agree(Play(OPENED, inputs), HistoryOf(inputs))
  {
    OpenedIsGood();
    AgreeAlways(OPENED, NOTHING, inputs);
  }

  /** Nothing is lost, added or reordered on the way through the task: it says as many notices as a
      `select!` saw the shutdown, the output the pumps delivered, writes the stdin chunks that came while
      the pipe was open, and relays the signals that came, each list exactly and in order. And while the
      bridge runs, its three flags are what happened. */
  lemma TraceIsHistory(inputs: seq<Input>)
    requires forall i <- inputs :: FromPumps(i)
    ensures var t, h := Play(OPENED, inputs), HistoryOf(inputs);
            && Notices(Emits(t.trace)) == h.stops
            && Outs(t.trace) == h.outputs
            && Feeds(t.trace) == h.feeds
            && Relays(t.trace) == h.signals
            && (InBridge(t.conn.phase) ==>
                  && (t.conn.clientWritesOpen <==> !h.writesEnded)
                  && (t.conn.stdinOpen <==> !h.pipeEnded)
                  && (t.conn.stoppingOpen <==> !h.stopSeen))
  {
    RunAgrees(inputs);
  }

  /** How every finished run with a child ended, by the first event that ended its bridge. All output
      relayed: the wait, then the report of what the wait answered, for every answer and with or without
      a late notice. An undecodable frame: that error, TERM and the wait. A lost output frame: TERM and the
      wait. */
  lemma HowItEnds(inputs: seq<Input>)
    requires forall i <- inputs :: FromPumps(i)
    requires Play(OPENED, inputs).conn.phase.Done? && ChildStarted in Play(OPENED, inputs).trace
    ensures var tr, h := Play(OPENED, inputs).trace, HistoryOf(inputs);
            && h.request.Some? && h.end.Some?
            && (h.end == Some(AllOut) ==> h.wait.Some?)
            && (h.end == Some(AllOut) && h.wait.value.Err? ==>
                  EndsWith(tr, [Reap, Emit(Error("cannot wait for `" + h.request.value.command + "`: " + h.wait.value.error))]))
            && (h.end == Some(AllOut) && h.wait.value.Ok? && h.wait.value.value.Exited? ==>
                  EndsWith(tr, [Reap, Emit(Exit(ExitMsg(Some((h.wait.value.value.code % 256) as byte), None)))]))
            && (h.end == Some(AllOut) && h.wait.value.Ok? && h.wait.value.value.Signaled? ==>
                  EndsWith(tr, [Reap, Emit(Exit(ExitMsg(None, Some((h.wait.value.value.signal % 256) as byte))))]))
            && (h.end == Some(AllOut) && h.wait.value.Ok? && h.wait.value.value.Unknowable? ==>
                  EndsWith(tr, [Reap, Emit(Exit(ExitMsg(None, None)))]))
            && (h.end.value.BadFrame? ==>
                  EndsWith(tr, [Emit(Error(DecodeText(h.end.value.error))), BridgeOver(false), Kill(SIGTERM, Disconnect), Reap]))
            && (h.end == Some(SendFailed) ==>
                  EndsWith(tr, [BridgeOver(false), Kill(SIGTERM, Disconnect), Reap]) && LostOutput(tr))
  {
    RunAgrees(inputs);
    var t, h := Play(OPENED, inputs), HistoryOf(inputs);
    StartedIsRequested(t);
    TailOf(t.trace, t.conn.command, h);
  }

  lemma StartedIsRequested(t: Task)
    requires Good(t) && t.conn.phase.Done? && ChildStarted in t.trace
    ensures Requested(t.trace)
  {
  }

  lemma TailOf(tr: seq<Effect>, command: string, h: History)
    requires Finished(tr, command, h)
    ensures h.end.value.BadFrame? ==>
              EndsWith(tr, [Emit(Error(DecodeText(h.end.value.error))), BridgeOver(false), Kill(SIGTERM, Disconnect), Reap])
    ensures h.end == Some(SendFailed) ==>
              EndsWith(tr, [BridgeOver(false), Kill(SIGTERM, Disconnect), Reap]) && LostOutput(tr)
  {
    var rest := [Kill(SIGTERM, Disconnect), Reap];
    if h.end.value.BadFrame? {
      var e := Emit(Error(DecodeText(h.end.value.error)));
      assert [e, BridgeOver(false)] + rest == [e, BridgeOver(false), Kill(SIGTERM, Disconnect), Reap];
    } else if h.end == Some(SendFailed) {
      assert [BridgeOver(false)] + rest == [BridgeOver(false), Kill(SIGTERM, Disconnect), Reap];
      assert tr[|tr| - 3..][0] == BridgeOver(false);
      assert tr[|tr| - 3] == BridgeOver(false);
    }
  }

  /** The last effect of a finished run that relayed all output reports a wait that was made. */
  lemma RelayedEnd(inputs: seq<Input>) returns (r: Result<ExitStatus, string>)
    requires forall i <- inputs :: FromPumps(i)
    requires Play(OPENED, inputs).conn.phase.Done? && BridgeOver(true) in Play(OPENED, inputs).trace
    ensures var tr := Play(OPENED, inputs).trace;
            Requested(tr) && WaitDone(r) in inputs && tr[|tr| - 1] == Emit(Report(tr[0].request.command, r))
  {
    var t, h := Play(OPENED, inputs), HistoryOf(inputs);
    OpenedIsGood();
    TracedAlways(OPENED, NOTHING, [], inputs);
    assert [] + inputs == inputs;
    RunAgrees(inputs);
    StartedIsRequested(t);
    RelayedTail(t.trace, t.conn.command, h);
    r := h.wait.value;
  }

  lemma RelayedTail(tr: seq<Effect>, command: string, h: History)
    requires Finished(tr, command, h) && (BridgeOver(true) in tr ==> BridgeOver(false) !in tr)
    requires BridgeOver(true) in tr
    ensures h.wait.Some? && tr[|tr| - 1] == Emit(Report(command, h.wait.value))
  {
    if h.end.value.AllOut? {
      assert tr[|tr| - 2..][1] == tr[|tr| - 1];
    } else {
      TailOf(tr, command, h);
      EndsHas(tr, h.end.value);
    }
  }

  lemma EndsHas(tr: seq<Effect>, end: BridgeCause)
    requires !end.AllOut? && Cue(tr, end, [Kill(SIGTERM, Disconnect), Reap])
    ensures BridgeOver(false) in tr
  {
    assert tr[|tr| - 3..][0] == tr[|tr| - 3];
  }

  // --------------------------------------------------- errors after a start

  /** What an error said after the child was started goes back to: a frame that could not be read or
      decoded, or a wait that failed. */
  ghost predicate Blamed(text: string, command: string, inputs: seq<Input>) {
    || (exists e :: FrameIn(Err(e)) in inputs && text == DecodeText(e))
    || (exists source :: WaitDone(Err(source)) in inputs && text == "cannot wait for `" + command + "`: " + source)
  }

  /** The wait the history knows, and the errors said so far, come from the inputs. */
  ghost predicate Traced(t: Task, h: History, inputs: seq<Input>) {
    && (h.wait.Some? ==> WaitDone(h.wait.value) in inputs)
    && (BridgeOver(true) in t.trace ==> ChildStarted in t.trace)
    && (ChildStarted in t.trace ==>
          && Requested(t.trace)
          && forall e <- t.trace :: e.Emit? && e.m.Error? ==> Blamed(e.m.message, t.trace[0].request.command, inputs))
  }

  lemma BlamedMore(text: string, command: string, inputs: seq<Input>, i: Input)
    requires Blamed(text, command, inputs)
    ensures Blamed(text, command, inputs + [i])
  {
    if e :| FrameIn(Err(e)) in inputs && text == DecodeText(e) {
      assert FrameIn(Err(e)) in inputs + [i];
    } else {
      var source :| WaitDone(Err(source)) in inputs && text == "cannot wait for `" + command + "`: " + source;
      assert WaitDone(Err(source)) in inputs + [i];
    }
  }

  lemma NotedWait(h: History, p: Phase, i: Input)
    ensures var g := Note(h, p, i);
            g.wait == h.wait || (i.WaitDone? && g.wait == Some(i.status))
  {
  }

  /** The error a reaction of a started task says. */
  lemma ErrorComesFrom(c: Conn, tr: seq<Effect>, h: History, i: Input)
    requires Control(c, tr) && Ended(c, tr, h) && FromPumps(i) && ChildStarted in tr
    ensures var e := React(c, i).effect;
            e.Emit? && e.m.Error? ==>
              || (i.FrameIn? && i.r.Err? && e.m.message == DecodeText(i.r.error))
              || (h.wait.Some? && h.wait.value.Err?
                  && e.m.message == "cannot wait for `" + c.command + "`: " + h.wait.value.error)
  {
  }

  lemma EarlyTrace(c: Conn, tr: seq<Effect>, i: Input)
    requires Control(c, tr) && FromPumps(i) && ChildStarted !in tr
    ensures React(c, i).effect == ChildStarted ==> tr == [Accepted(c.phase.request)]
    ensures ChildStarted in Record(tr, React(c, i).effect) ==> React(c, i).effect == ChildStarted
    ensures React(c, i).effect != BridgeOver(true)
  {
  }

  lemma TracedStep(t: Task, h: History, inputs: seq<Input>, i: Input)
    requires Agree(t, h) && Traced(t, h, inputs) && FromPumps(i)
    ensures Traced(Step(t, i), Note(h, t.conn.phase, i), inputs + [i])
  {
    var c, tr, e := t.conn, t.trace, React(t.conn, i).effect;
    StepRecords(t, i);
    NotedWait(h, c.phase, i);
    if ChildStarted in tr {
      var command := tr[0].request.command;
      forall x <- tr | x.Emit? && x.m.Error? ensures Blamed(x.m.message, command, inputs + [i]) {
        BlamedMore(x.m.message, command, inputs, i);
      }
      ErrorComesFrom(c, tr, h, i);
      if e.Emit? && e.m.Error? {
        NewlyBlamed(c, tr, h, inputs, i, e.m.message);
      }
    } else {
      EarlyTrace(c, tr, i);
    }
  }

  lemma NewlyBlamed(c: Conn, tr: seq<Effect>, h: History, inputs: seq<Input>, i: Input, text: string)
    requires ChildStarted in tr && Requested(tr) && Known(c, tr, h) && !c.phase.AwaitFirst?
    requires h.wait.Some? ==> WaitDone(h.wait.value) in inputs
    requires || (i.FrameIn? && i.r.Err? && text == DecodeText(i.r.error))
             || (h.wait.Some? && h.wait.value.Err? && text == "cannot wait for `" + c.command + "`: " + h.wait.value.error)
    ensures Blamed(text, tr[0].request.command, inputs + [i])
  {
    if i.FrameIn? && i.r.Err? && text == DecodeText(i.r.error) {
      assert FrameIn(Err(i.r.error)) in inputs + [i];
    } else {
      assert WaitDone(Err(h.wait.value.error)) in inputs + [i];
    }
  }

  lemma {:induction false} TracedAlways(t: Task, h: History, before: seq<Input>, inputs: seq<Input>)
    requires Agree(t, h) && Traced(t, h, before) && forall i <- inputs :: FromPumps(i)
    ensures Traced(Play(t, inputs), NoteAll(h, t, inputs), before + inputs)
    decreases |inputs|
  {
    if inputs == [] {
      assert before + inputs == before;
    } else {
      TracedStep(t, h, before, inputs[0]);
      AgreeStep(t, h, inputs[0]);
      TracedAlways(Step(t, inputs[0]), Note(h, t.conn.phase, inputs[0]), before + [inputs[0]], inputs[1..]);
      Shift(before, inputs);
    }
  }

  lemma Shift(before: seq<Input>, inputs: seq<Input>)
    requires inputs != []
    ensures (before + [inputs[0]]) + inputs[1..] == before + inputs
  {
  }

  /** A run whose child was started says an error only if a frame could not be read or decoded, or the wait
      failed; and then that error. So a child whose wait worked is never reported by an error. */
  lemma ErrorsOfARun(inputs: seq<Input>, text: string)
    requires forall i <- inputs :: FromPumps(i)
    requires ChildStarted in Play(OPENED, inputs).trace && Emit(Error(text)) in Play(OPENED, inputs).trace
    ensures var tr := Play(OPENED, inputs).trace;
            Requested(tr) && Blamed(text, tr[0].request.command, inputs)
  {
    OpenedIsGood();
    TracedAlways(OPENED, NOTHING, [], inputs);
    assert [] + inputs == inputs;
  }

  // ---------------------------------------------------------------- launch

  ghost predicate FirstBad(env: seq<string>, k: nat) {
    k < |env| && '=' !in env[k] && forall j :: 0 <= j < k ==> '=' in env[j]
  }

  lemma {:induction false} FirstBadIs(env: seq<string>, k: nat)
    requires FirstBad(env, k)
    ensures FirstBadEntry(env) == Some(env[k])
    decreases k
  {
    if k > 0 {
      assert '=' in env[0];
      assert forall j :: 0 <= j < k - 1 ==> env[1..][j] == env[j + 1];
      FirstBadIs(env[1..], k - 1);
    }
  }

  predicate GoodEntries(env: seq<string>) {
    forall entry <- env :: '=' in entry
  }

  /** The one reply to a launch that fails: that of the first of directory, entries and spawn. */
  ghost predicate ReplyIs(q: Request, isDir: bool, spawn: SpawnResult, m: Message) {
    && (!isDir ==> m == Error("`cwd` is not a directory: `" + q.cwd + "`"))
    && (forall k: nat | FirstBad(q.env, k) :: isDir ==> m == Error("invalid env entry `" + q.env[k] + "`"))
    && (isDir && GoodEntries(q.env) && spawn.NotFound? ==> m == Exit(ExitMsg(Some(127), None)))
    && (isDir && GoodEntries(q.env) && spawn.PermissionDenied? ==> m == Exit(ExitMsg(Some(126), None)))
    && (isDir && GoodEntries(q.env) && spawn.SpawnFailed? ==>
          m == Error("cannot spawn `" + q.command + "`: " + spawn.source))
  }

  lemma ReplyOf(q: Request, isDir: bool, spawn: SpawnResult)
    ensures LaunchReply(q, isDir, spawn).None? <==> isDir && GoodEntries(q.env) && spawn.Spawned?
    ensures LaunchReply(q, isDir, spawn).Some? ==> ReplyIs(q, isDir, spawn, LaunchReply(q, isDir, spawn).value)
  {
    GoodEnv(q.env);
    forall k: nat | FirstBad(q.env, k) ensures FirstBadEntry(q.env) == Some(q.env[k]) {
      FirstBadIs(q.env, k);
    }
  }

  /** A child is started exactly if the directory is one, every entry has its `=` and the spawn worked;
      otherwise the run says its one reply, whatever happens later. */
  lemma ChildIffLaunched(q: Request, isDir: bool, spawn: SpawnResult, rest: seq<Input>)
    ensures var tr := Play(OPENED, [FrameIn(Ok(Run(q))), Launch(isDir, spawn)] + rest).trace;
            && (ChildStarted in tr <==> isDir && GoodEntries(q.env) && spawn.Spawned?)
            && (ChildStarted !in tr ==> |Emits(tr)| == 1 && ReplyIs(q, isDir, spawn, Emits(tr)[0]))
  {
    ReplyOf(q, isDir, spawn);
    if LaunchReply(q, isDir, spawn).Some? {
      RefusedRequest(q, isDir, spawn, rest);
    } else {
      Launched(q, isDir, spawn, rest);
    }
  }

  lemma Launched(q: Request, isDir: bool, spawn: SpawnResult, rest: seq<Input>)
    requires LaunchReply(q, isDir, spawn).None?
    ensures ChildStarted in Play(OPENED, [FrameIn(Ok(Run(q))), Launch(isDir, spawn)] + rest).trace
  {
    var a, b := FrameIn(Ok(Run(q))), Launch(isDir, spawn);
    assert [a, b] + rest == [a] + ([b] + rest);
    PlayOne(OPENED, a, [b] + rest);
    PlayOne(Step(OPENED, a), b, rest);
    var t := Step(Step(OPENED, a), b);
    assert t.trace == [Accepted(q), ChildStarted];
    TraceGrows(t, rest);
  }

  lemma {:induction false} TraceGrows(t: Task, rest: seq<Input>)
    ensures t.trace <= Play(t, rest).trace
    decreases |rest|
  {
    if rest != [] {
      StepRecords(t, rest[0]);
      TraceGrows(Step(t, rest[0]), rest[1..]);
    }
  }

  // --------------------------------------------------------------- no dead end

  /** What the environment can answer at a phase, without any failure, to bring a run nearer its end. */
  function Toward(p: Phase): Input {
    match p
    case AwaitFirst => FrameEnd
    case Launching(_) => Launch(false, Spawned)
    case Bridging => OutputClosed
    case Feeding => WriteDone(true)
    case Abandoning => Proceed
    case Reporting(_) => Proceed
    case Reaping => WaitDone(Ok(Unknowable))
    case AwaitingChild => WaitDone(Ok(Unknowable))
    case AwaitingChildLate => WaitDone(Ok(Unknowable))
    case _ => SendDone(true)
  }

  function Distance(p: Phase): nat {
    match p
    case Done => 0
    case Replying => 1
    case Closing => 1
    case Reaping => 1
    case Reporting(_) => 2
    case Abandoning => 2
    case Launching(_) => 2
    case AwaitingChild => 3
    case AwaitingChildLate => 3
    case Rejecting => 3
    case NotifyingLate => 4
    case Bridging => 5
    case Relaying => 6
    case Feeding => 6
    case Notifying => 6
    case AwaitFirst => 6
  }

  lemma Nearer(c: Conn)
    requires !c.phase.Done?
    ensures Distance(React(c, Toward(c.phase)).conn.phase) < Distance(c.phase)
  {
  }

  /** No run is stuck: from every state of the task the environment can bring it to its end without any
      failure. */
  lemma {:induction false} NeverStuck(t: Task) returns (rest: seq<Input>)
    ensures Play(t, rest).conn.phase.Done?
    ensures SendDone(false) !in rest && WriteDone(false) !in rest
    decreases Distance(t.conn.phase)
  {
    if t.conn.phase.Done? {
      rest := [];
    } else {
      Nearer(t.conn);
      var later := NeverStuck(Step(t, Toward(t.conn.phase)));
      PlayOne(t, Toward(t.conn.phase), later);
      rest := [Toward(t.conn.phase)] + later;
    }
  }
}
