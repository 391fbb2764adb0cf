/** The two tasks inside a whole connection: each is a run of the task alone, over inputs that the steps made
    account for; so what is proved of every run of a task holds of it in a connection. In particular an error
    reported for a child can be blamed on a step, and so can a session's own failure. */
module ExecTasks {
  import opened Wrappers
  import opened Protocol
  import L = Link
  import S = ServerConnection
  import P = ServerProtocol
  import R = ServerRuns
  import C = ClientSession
  import opened ExecConnection
  import opened ExecSafety
  import opened ExecInput
  import opened ExecTheorems
  import O = ExecOutcome

  function Offered(json: Json, s: System, st: Step): seq<S.Input> {
    if st.OnServer? && s.serverUp && ServerOffer(json, s, st.s).Offer? then [ServerOffer(json, s, st.s).input] else []
  }

  /** The inputs the task took in the course of a run. */
  function Taken(json: Json, request: Request, steps: seq<Step>): seq<S.Input> {
    if steps == [] then []
    else
      var front := steps[..|steps| - 1];
      Taken(json, request, front) + Offered(json, Execute(json, Begin(json, request), front), steps[|steps| - 1])
  }

  /** The step behind an input. */
  ghost predicate Backed(i: S.Input, made: seq<Step>) {
    && P.FromPumps(i)
    && (i.WaitDone? && i.status.Err? ==> OnServer(WaitFails(i.status.error)) in made)
    && (i.WaitDone? && i.status.Ok? ==> OnServer(WaitReturns) in made && ChildExits(i.status.value) in made)
    && (i.Launch? ==> OnServer(Launch(i.isDir, i.spawn)) in made)
    && (i.FrameIn? && i.r.Err? ==> i.r.error == ReadFailure && (OnServer(SocketError) in made || OnServer(TakeEof) in made))
    && (i.Stopping? ==> StopRaised in made)
  }

  lemma BackedMore(i: S.Input, made: seq<Step>, st: Step)
    requires Backed(i, made)
    ensures Backed(i, made + [st])
  {
  }

  /** The stop flag and the child's status come from steps. */
  ghost predicate Outside(s: System, made: seq<Step>) {
    && (s.stop ==> StopRaised in made)
    && (s.server.child.Ended? || s.server.child.Reaped? ==> ChildExits(s.server.child.status) in made)
  }

  lemma ServerOutside(json: Json, s: System, m: ServerStep)
    requires QueueOk(s)
    ensures var t := MoveServer(json, s, m);
            && t.stop == s.stop
            && (t.server.child.Ended? ==> t.server.child == s.server.child)
            && (t.server.child.Reaped? ==>
                  t.server.child == s.server.child || (s.server.child.Ended? && s.server.child.status == t.server.child.status))
  {
    O.TaskMoves(json, s, m);
    var o := ServerOffer(json, s, m);
    if o.Offer? {
      OfferChild(json, s, m);
      ActChild(json, o.world, o.input);
    }
  }

  lemma OfferChild(json: Json, s: System, m: ServerStep)
    ensures var o := ServerOffer(json, s, m);
            o.Offer? ==>
              || o.world.server.child == s.server.child
              || (s.server.child.Ended? && o.world.server.child == Reaped(s.server.child.status))
  {
  }

  lemma ActChild(json: Json, s: System, i: S.Input)
    ensures var t := React(json, s, i); t.server.child == s.server.child || t.server.child == Alive
  {
  }

  lemma OutsideNext(json: Json, s: System, st: Step, made: seq<Step>)
    requires Outside(s, made) && QueueOk(s)
    ensures Outside(Next(json, s, st), made + [st])
  {
    if st.OnServer? {
      ServerOutside(json, s, st.s);
    } else if st.OnClient? {
      ClientOutside(json, s, st.c);
    }
  }

  lemma ClientOutside(json: Json, s: System, m: ClientStep)
    ensures MoveClient(json, s, m).stop == s.stop && MoveClient(json, s, m).server == s.server
  {
    O.ClientEnds(json, s, m);
  }

  lemma OfferBacked(json: Json, s: System, m: ServerStep, made: seq<Step>)
    requires Faithful(json) && L.Intact(json, s.c2s) && QueueOk(s) && Outside(s, made)
    ensures var o := ServerOffer(json, s, m); o.Offer? ==> Backed(o.input, made + [OnServer(m)])
  {
    L.Receive(json, s.c2s);
    OfferIsFromPumps(json, s, m);
  }

  lemma {:induction false} PlaySnoc(t: S.Task, inputs: seq<S.Input>, i: S.Input)
    ensures S.Play(t, inputs + [i]) == S.Step(S.Play(t, inputs), i)
    decreases |inputs|
  {
    if inputs == [] {
      assert inputs + [i] == [i] && [i][1..] == [];
    } else {
      assert (inputs + [i])[1..] == inputs[1..] + [i];
      PlaySnoc(S.Step(t, inputs[0]), inputs[1..], i);
    }
  }

  ghost predicate Replayed(json: Json, request: Request, steps: seq<Step>, s: System) {
    && s.server.task == S.Play(S.OPENED, Taken(json, request, steps))
    && (forall i <- Taken(json, request, steps) :: Backed(i, steps))
    && Outside(s, steps)
  }

  lemma TaskNext(json: Json, s: System, st: Step)
    requires QueueOk(s)
    ensures var t, o := Next(json, s, st), Offered(json, s, st);
            t.server.task == if o == [] then s.server.task else S.Step(s.server.task, o[0])
  {
    if st.OnServer? {
      O.TaskMoves(json, s, st.s);
    } else if !st.OnClient? {
      O.ElsewhereKeeps(json, s, st);
    } else {
      ClientOutside(json, s, st.c);
    }
  }

  lemma {:induction false} Replays(json: Json, request: Request, steps: seq<Step>)
    requires Faithful(json)
    ensures Replayed(json, request, steps, Execute(json, Begin(json, request), steps))
    decreases |steps|
  {
    if steps != [] {
      var front, last := steps[..|steps| - 1], steps[|steps| - 1];
      var s := Execute(json, Begin(json, request), front);
      assert steps == front + [last];
      Replays(json, request, front);
      O.ExecuteSnoc(json, Begin(json, request), front, last);
      ReachedParts(json, request, front, s);
      ReplayNext(json, request, front, last, s);
    }
  }

  lemma ReachedParts(json: Json, request: Request, steps: seq<Step>, s: System)
    requires Faithful(json) && s == Execute(json, Begin(json, request), steps)
    ensures L.Intact(json, s.c2s) && QueueOk(s)
  {
    assert Reached(json, s);
    ReachedInvariant(json, s);
  }

  lemma ReplayNext(json: Json, request: Request, front: seq<Step>, last: Step, s: System)
    requires Faithful(json) && L.Intact(json, s.c2s) && QueueOk(s)
    requires Replayed(json, request, front, s) && s == Execute(json, Begin(json, request), front)
    ensures Replayed(json, request, front + [last], Next(json, s, last))
  {
    var steps, before, o := front + [last], Taken(json, request, front), Offered(json, s, last);
    assert steps[..|steps| - 1] == front;
    assert Taken(json, request, steps) == before + o;
    OutsideNext(json, s, last, front);
    TaskNext(json, s, last);
    forall i <- before ensures Backed(i, steps) {
      BackedMore(i, front, last);
    }
    if o == [] {
      assert before + o == before;
    } else {
      OfferBacked(json, s, last.s, front);
      PlaySnoc(S.OPENED, before, o[0]);
      assert o == [o[0]];
    }
  }

  // ------------------------------------------------------------ the guarantees

  /** Inside every connection the server's task is a run of the task alone; each wait, launch, read failure
      and notice in its inputs is a step that was made, and a wait answers with the status the child ended
      with. Every theorem about runs of the task therefore speaks of connections too. */
  lemma ServerIsARun(json: Json, request: Request, steps: seq<Step>)
    requires Faithful(json)
    ensures var inputs := Taken(json, request, steps);
            && Execute(json, Begin(json, request), steps).server.task == S.Play(S.OPENED, inputs)
            && (forall i <- inputs :: P.FromPumps(i))
            && (forall source :: S.WaitDone(Err(source)) in inputs ==> OnServer(WaitFails(source)) in steps)
            && (forall status :: S.WaitDone(Ok(status)) in inputs ==> ChildExits(status) in steps)
            && (forall e :: S.FrameIn(Err(e)) in inputs ==> e == ReadFailure)
            && (S.Stopping in inputs ==> StopRaised in steps)
  {
    Replays(json, request, steps);
  }

  lemma CommandSent(json: Json, request: Request, steps: seq<Step>)
    requires Faithful(json)
    requires P.Requested(Execute(json, Begin(json, request), steps).server.task.trace)
    ensures Execute(json, Begin(json, request), steps).server.task.trace[0].request == request
  {
    O.AcceptedIsSent(json, request, steps);
    var tr := Execute(json, Begin(json, request), steps).server.task.trace;
    assert tr[0] in tr;
  }

  /** An answer of the wait, and the steps it takes. */
  ghost predicate Answered(r: Result<S.ExitStatus, string>, made: seq<Step>) {
    if r.Err? then OnServer(WaitFails(r.error)) in made else ChildExits(r.value) in made
  }

  /** What a finished connection task whose bridge relayed all output said last: the report of the status the
      child ended with; or that the wait failed, and then a wait did fail. */
  lemma LastWord(json: Json, request: Request, steps: seq<Step>)
    requires Faithful(json)
    requires var t := Execute(json, Begin(json, request), steps).server.task;
             t.conn.phase.Done? && S.BridgeOver(true) in t.trace
    ensures var tr := Execute(json, Begin(json, request), steps).server.task.trace;
            exists r :: Answered(r, steps) && tr != [] && tr[|tr| - 1] == S.Emit(R.Report(request.command, r))
  {
    var r := WaitBehind(json, request, steps);
    assert Answered(r, steps);
  }

  lemma WaitBehind(json: Json, request: Request, steps: seq<Step>) returns (r: Result<S.ExitStatus, string>)
    requires Faithful(json)
    requires var t := Execute(json, Begin(json, request), steps).server.task;
             t.conn.phase.Done? && S.BridgeOver(true) in t.trace
    ensures Answered(r, steps)
    ensures var tr := Execute(json, Begin(json, request), steps).server.task.trace;
            tr != [] && tr[|tr| - 1] == S.Emit(R.Report(request.command, r))
  {
    Replays(json, request, steps);
    r := LastWordOf(Taken(json, request, steps), steps);
    CommandSent(json, request, steps);
  }

  lemma LastWordOf(inputs: seq<S.Input>, made: seq<Step>) returns (r: Result<S.ExitStatus, string>)
    requires forall i <- inputs :: Backed(i, made)
    requires S.Play(S.OPENED, inputs).conn.phase.Done? && S.BridgeOver(true) in S.Play(S.OPENED, inputs).trace
    ensures Answered(r, made)
    ensures var tr := S.Play(S.OPENED, inputs).trace;
            P.Requested(tr) && tr[|tr| - 1] == S.Emit(R.Report(tr[0].request.command, r))
  {
    r := R.RelayedEnd(inputs);
    assert Backed(S.WaitDone(r), made);
  }

  /** A client that reports an error although the child was started was told that the server could not read
      the connection, and a read did fail or end inside a frame; or that the wait failed, and a wait did
      fail. So a child that ran and was waited for is never reported as an error. */
  lemma ErrorAfterStart(json: Json, request: Request, steps: seq<Step>, text: string)
    requires Faithful(json)
    requires var s := Execute(json, Begin(json, request), steps);
             O.EndedBy(s.host.session, C.ByError(text)) && S.ChildStarted in s.server.task.trace
    ensures || (text == "cannot read the socket" && (OnServer(SocketError) in steps || OnServer(TakeEof) in steps))
            || exists source :: OnServer(WaitFails(source)) in steps && text == "cannot wait for `" + request.command + "`: " + source
  {
    var s := Execute(json, Begin(json, request), steps);
    assert Reached(json, s);
    O.OtherVerdicts(json, s, "");
    Blame(json, request, steps, text);
  }

  lemma Blame(json: Json, request: Request, steps: seq<Step>, text: string)
    requires Faithful(json)
    requires var tr := Execute(json, Begin(json, request), steps).server.task.trace;
             S.Emit(Error(text)) in tr && S.ChildStarted in tr
    ensures || (text == "cannot read the socket" && (OnServer(SocketError) in steps || OnServer(TakeEof) in steps))
            || exists source :: OnServer(WaitFails(source)) in steps && text == "cannot wait for `" + request.command + "`: " + source
  {
    var inputs := Taken(json, request, steps);
    Replays(json, request, steps);
    R.ErrorsOfARun(inputs, text);
    CommandSent(json, request, steps);
    if e :| S.FrameIn(Err(e)) in inputs && text == S.DecodeText(e) {
      assert Backed(S.FrameIn(Err(e)), steps);
    } else {
      var source :| S.WaitDone(Err(source)) in inputs && text == "cannot wait for `" + request.command + "`: " + source;
      assert Backed(S.WaitDone(Err(source)), steps);
    }
  }

  /** A request that can be serialized within the cap is on the wire from the start, as one frame. */
  lemma RequestIsOnTheWire(json: Json, request: Request)
    requires json.enc(Run(request)).Some? && |json.enc(Run(request)).value| <= MAX_PAYLOAD
    ensures var l := Begin(json, request).c2s;
            && l.sent == [Run(request)] && !l.rejected
            && l.wbuf == EncodeFrame(Frame(RequestTag, json.enc(Run(request)).value))
  {
    FramesOf(json, Run(request));
  }

  // ------------------------------------------------------------- the client

  function ClientOffered(json: Json, s: System, st: Step): seq<C.Input> {
    if st.OnClient? && s.clientUp && ClientOffer(json, s, st.c).Offer? then [ClientOffer(json, s, st.c).input] else []
  }

  /** The inputs the session took in the course of a run. */
  function Given(json: Json, request: Request, steps: seq<Step>): seq<C.Input> {
    if steps == [] then []
    else
      var front := steps[..|steps| - 1];
      Given(json, request, front) + ClientOffered(json, Execute(json, Begin(json, request), front), steps[|steps| - 1])
  }

  /** The step behind an input of the session. */
  ghost predicate ClientBacked(i: C.Input, made: seq<Step>) {
    && C.FromPump(i)
    && (i.Sent? ==> OnClient(SendBack(i.ok)) in made)
    && (i.Installed? ==> OnClient(Install(i.ok)) in made)
    && (i.Raised? ==> OnClient(Raise(i.signal)) in made)
    && (i.FrameIn? && i.cut.Some? ==> OnClient(GetFrame(i.cut)) in made)
    && (i.FrameIn? && i.r.Err? ==> i.r.error == ReadFailure && (OnClient(GetError) in made || OnClient(GetEof) in made))
  }

  lemma ClientOfferBacked(json: Json, s: System, m: ClientStep, made: seq<Step>)
    requires Faithful(json) && L.Intact(json, s.s2c) && QueueShape(s.host.queue, s.host.live)
    ensures var o := ClientOffer(json, s, m); o.Offer? ==> ClientBacked(o.input, made + [OnClient(m)])
  {
    L.Receive(json, s.s2c);
  }

  lemma ClientBackedMore(i: C.Input, made: seq<Step>, st: Step)
    requires ClientBacked(i, made)
    ensures ClientBacked(i, made + [st])
  {
  }

  lemma {:induction false} ClientPlaySnoc(x: C.Session, inputs: seq<C.Input>, i: C.Input)
    ensures C.Play(x, inputs + [i]) == C.Step(C.Play(x, inputs), i)
    decreases |inputs|
  {
    if inputs == [] {
      assert inputs + [i] == [i] && [i][1..] == [];
    } else {
      assert (inputs + [i])[1..] == inputs[1..] + [i];
      ClientPlaySnoc(C.Step(x, inputs[0]), inputs[1..], i);
    }
  }

  lemma SessionMoves(json: Json, s: System, m: ClientStep)
    ensures var o := ClientOffer(json, s, m);
            MoveClient(json, s, m).host.session == if o.Offer? then C.Step(s.host.session, o.input) else s.host.session
  {
    var o := ClientOffer(json, s, m);
    if o.Offer? {
      ClientOfferFrame(json, s, m);
      ReactShows(json, o.world, o.input);
    }
  }

  lemma SessionNext(json: Json, s: System, st: Step)
    ensures var o := ClientOffered(json, s, st);
            Next(json, s, st).host.session == if o == [] then s.host.session else C.Step(s.host.session, o[0])
  {
    if st.OnClient? {
      SessionMoves(json, s, st.c);
    } else if st.OnServer? {
      ServerFrame(json, s, st.s);
    } else {
      O.ElsewhereKeeps(json, s, st);
    }
  }

  lemma {:induction false} ClientReplays(json: Json, request: Request, steps: seq<Step>)
    requires Faithful(json)
    ensures Execute(json, Begin(json, request), steps).host.session == C.Play(C.Requesting(request), Given(json, request, steps))
    ensures forall i <- Given(json, request, steps) :: ClientBacked(i, steps)
    decreases |steps|
  {
    if steps != [] {
      var front, last := steps[..|steps| - 1], steps[|steps| - 1];
      var s := Execute(json, Begin(json, request), front);
      assert steps == front + [last];
      ClientReplays(json, request, front);
      O.ExecuteSnoc(json, Begin(json, request), front, last);
      HostParts(json, request, front, s);
      ClientReplayNext(json, request, front, last, s);
    }
  }

  lemma HostParts(json: Json, request: Request, steps: seq<Step>, s: System)
    requires Faithful(json) && s == Execute(json, Begin(json, request), steps)
    ensures L.Intact(json, s.s2c) && QueueShape(s.host.queue, s.host.live)
  {
    assert Reached(json, s);
    ReachedInvariant(json, s);
  }

  lemma ClientReplayNext(json: Json, request: Request, front: seq<Step>, last: Step, s: System)
    requires Faithful(json) && L.Intact(json, s.s2c) && QueueShape(s.host.queue, s.host.live)
    requires s == Execute(json, Begin(json, request), front)
    requires s.host.session == C.Play(C.Requesting(request), Given(json, request, front))
    requires forall i <- Given(json, request, front) :: ClientBacked(i, front)
    ensures Next(json, s, last).host.session == C.Play(C.Requesting(request), Given(json, request, front + [last]))
    ensures forall i <- Given(json, request, front + [last]) :: ClientBacked(i, front + [last])
  {
    var steps, before, o := front + [last], Given(json, request, front), ClientOffered(json, s, last);
    assert steps[..|steps| - 1] == front;
    assert Given(json, request, steps) == before + o;
    SessionNext(json, s, last);
    forall i <- before ensures ClientBacked(i, steps) {
      ClientBackedMore(i, front, last);
    }
    if o == [] {
      assert before + o == before;
    } else {
      ClientOfferBacked(json, s, last.c, front);
      ClientPlaySnoc(C.Requesting(request), before, o[0]);
      assert o == [o[0]];
    }
  }

  /** Inside every connection the client's session is a run of the session alone; no chunk of stdin is empty,
      and each failed send, missing handler, failed write and failed read in its inputs is a step that was
      made. Every theorem about runs of the session therefore speaks of connections too. */
  lemma ClientIsARun(json: Json, request: Request, steps: seq<Step>)
    requires Faithful(json)
    ensures var inputs := Given(json, request, steps);
            && Execute(json, Begin(json, request), steps).host.session == C.Play(C.Requesting(request), inputs)
            && (forall i <- inputs :: C.FromPump(i))
            && (C.Sent(false) in inputs ==> OnClient(SendBack(false)) in steps)
            && (C.Installed(false) in inputs ==> OnClient(Install(false)) in steps)
            && (forall r, k :: C.FrameIn(r, Some(k)) in inputs ==> OnClient(GetFrame(Some(k))) in steps)
            && (forall e, cut :: C.FrameIn(Err(e), cut) in inputs ==> e == ReadFailure)
  {
    ClientReplays(json, request, steps);
  }

  /** A session that ended on a failed send had one, and it was not that of the end of stdin: a client whose
      stdin ends after its child is gone still reports the child. */
  lemma FailedSendEnds(json: Json, request: Request, steps: seq<Step>)
    requires Faithful(json)
    requires O.EndedBy(Execute(json, Begin(json, request), steps).host.session, C.BySend)
    ensures var sent := Execute(json, Begin(json, request), steps).host.session.sent;
            && OnClient(SendBack(false)) in steps
            && sent != [] && sent[|sent| - 1] != Stdin([])
  {
    var inputs := Given(json, request, steps);
    ClientReplays(json, request, steps);
    C.EndsLocallyIff(request, inputs);
    var i := C.BySendNeedsOne(C.Requesting(request), inputs);
    assert ClientBacked(i, steps);
  }
}
