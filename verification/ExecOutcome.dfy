/** Where a client's outcome comes from: the request the server acts on is the one that was sent, an
    `Exit` without a child comes from a failed launch of it, and every other verdict from what the
    server said or from its end. */
module ExecOutcome {
  import opened Wrappers
  import opened Protocol
  import L = Link
  import S = ServerConnection
  import P = ServerProtocol
  import C = ClientSession
  import opened ExecConnection
  import opened ExecSafety
  import opened ExecInput
  import opened ExecTheorems

  /** The reply to a launch of `request` that the system refused, among the steps made. */
  predicate Refused(e: ExitMsg, request: Request, made: seq<Step>) {
    && S.FirstBadEntry(request.env) == None
    && ((e == ExitMsg(Some(127), None) && OnServer(Launch(true, S.NotFound)) in made)
        || (e == ExitMsg(Some(126), None) && OnServer(Launch(true, S.PermissionDenied)) in made))
  }

  /** What the task's trace owes to the request, the steps made and the stop flag. */
  ghost predicate Owed(tr: seq<S.Effect>, request: Request, made: seq<Step>, stop: bool) {
    && (forall e <- tr :: e.Accepted? ==> e.request == request)
    && (forall e <- tr :: e.Emit? && e.m.Exit? && S.ChildStarted !in tr ==> Refused(e.m.exit, request, made))
    && (S.Emit(ServerStopping) in tr ==> stop)
  }

  ghost predicate Origin(s: System, request: Request, made: seq<Step>) {
    && Owed(s.server.task.trace, request, made, s.stop)
    && (s.c2s.sent != [] ==> s.c2s.sent[0] == Run(request))
    && (EndedBy(s.host.session, C.ByEof) ==> ServerClosed(s))
  }

  predicate EndedBy(x: C.Session, cause: C.Cause) {
    x.client.phase == C.Finished(cause)
  }

  lemma RefusedMore(e: ExitMsg, request: Request, made: seq<Step>, st: Step)
    requires Refused(e, request, made)
    ensures Refused(e, request, made + [st])
  {
  }

  lemma OwedMore(tr: seq<S.Effect>, request: Request, made: seq<Step>, stop: bool, st: Step, stopNow: bool)
    requires Owed(tr, request, made, stop) && (stop ==> stopNow)
    ensures Owed(tr, request, made + [st], stopNow)
  {
    forall e <- tr | e.Emit? && e.m.Exit? && S.ChildStarted !in tr ensures Refused(e.m.exit, request, made + [st]) {
      RefusedMore(e.m.exit, request, made, st);
    }
  }

  // ------------------------------------------------------------- the server

  /** Where the effects in question come from. */
  ghost predicate Sourced(c: S.Conn, tr: seq<S.Effect>, i: S.Input, e: S.Effect) {
    && (e == S.Emit(ServerStopping) ==> i == S.Stopping)
    && (e.Accepted? ==> c.phase.AwaitFirst? && i == S.FrameIn(Ok(Run(e.request))))
    && (e.Emit? && e.m.Exit? && S.ChildStarted !in tr ==>
          c.phase.Launching? && i.Launch? && S.LaunchReply(c.phase.request, i.isDir, i.spawn) == Some(e.m))
  }

  lemma ReactIsSourced(c: S.Conn, tr: seq<S.Effect>, i: S.Input)
    requires P.Control(c, tr) && P.FromPumps(i)
    ensures Sourced(c, tr, i, S.React(c, i).effect)
  {
  }

  lemma OwedAdds(c: S.Conn, tr: seq<S.Effect>, i: S.Input, e: S.Effect, request: Request, made: seq<Step>, stop: bool)
    requires Owed(tr, request, made, stop) && P.Control(c, tr) && Sourced(c, tr, i, e)
    requires i == S.Stopping ==> stop
    requires c.phase.AwaitFirst? && i.FrameIn? && i.r.Ok? && i.r.value.Run? ==> i.r.value.request == request
    requires i.Launch? ==> OnServer(Launch(i.isDir, i.spawn)) in made
    ensures Owed(P.Record(tr, e), request, made, stop)
  {
    if e.Emit? && e.m.Exit? && S.ChildStarted !in tr {
      assert S.Accepted(c.phase.request) in tr;
      RefusalIsExit(request, i.isDir, i.spawn, e.m, made);
    }
  }

  lemma RefusalIsExit(q: Request, isDir: bool, spawn: S.SpawnResult, m: Message, made: seq<Step>)
    requires S.LaunchReply(q, isDir, spawn) == Some(m) && m.Exit? && OnServer(Launch(isDir, spawn)) in made
    ensures Refused(m.exit, q, made)
  {
  }

  lemma OfferSources(json: Json, s: System, m: ServerStep)
    ensures var o := ServerOffer(json, s, m);
            o.Offer? ==>
              && (o.input == S.Stopping ==> s.stop)
              && (o.input.Launch? ==> m == Launch(o.input.isDir, o.input.spawn))
              && (o.input.FrameIn? && o.input.r.Ok? ==>
                    && Polls(s.server.task.conn) && ScanFrame(s.c2s.rbuf).Got?
                    && o.input.r == FromFrame(json, ScanFrame(s.c2s.rbuf).frame))
  {
  }

  lemma FirstIsTheRequest(json: Json, s: System, request: Request, m: ServerStep)
    requires Faithful(json) && L.Intact(json, s.c2s) && RelayOk(s)
    requires s.c2s.sent != [] ==> s.c2s.sent[0] == Run(request)
    ensures var o := ServerOffer(json, s, m);
            o.Offer? && o.input.FrameIn? && o.input.r.Ok? && o.input.r.value.Run? && s.server.task.conn.phase.AwaitFirst? ==>
              o.input.r.value.request == request
  {
    OfferSources(json, s, m);
    L.Receive(json, s.c2s);
    if s.server.task.conn.phase.AwaitFirst? {
      assert |s.c2s.sent[..s.c2s.got]| == s.c2s.got;
    }
  }

  lemma TaskMoves(json: Json, s: System, m: ServerStep)
    requires QueueOk(s)
    ensures var o := ServerOffer(json, s, m);
            var t := MoveServer(json, s, m);
            && t.stop == s.stop && t.c2s.sent == s.c2s.sent && t.host == s.host && t.serverUp == s.serverUp
            && t.server.task ==
                 if o.Offer? then
                   var r := S.React(s.server.task.conn, o.input);
                   S.Task(r.conn, P.Record(s.server.task.trace, r.effect))
                 else s.server.task
  {
    ServerFrame(json, s, m);
    var o := ServerOffer(json, s, m);
    if o.Offer? {
      OfferIsFromPumps(json, s, m);
      OfferKeepsFlags(json, s, m);
      ReactIsTook(json, o.world, o.input);
      var r := S.React(s.server.task.conn, o.input);
      TookKeepsFlags(json, o.world, o.input, r.effect, r.conn);
    }
  }

  lemma OfferKeepsFlags(json: Json, s: System, m: ServerStep)
    ensures var o := ServerOffer(json, s, m); o.Offer? ==> o.world.stop == s.stop && o.world.serverUp == s.serverUp
  {
  }

  lemma TookKeepsFlags(json: Json, s: System, i: S.Input, e: S.Effect, d: S.Conn)
    ensures var t := Took(json, s, i, e, d);
            && t.stop == s.stop && t.serverUp == s.serverUp
            && t.server.task == S.Task(d, P.Record(s.server.task.trace, e))
  {
  }

  lemma DoneStays(c: S.Conn, i: S.Input)
    requires c.phase.Done?
    ensures S.React(c, i) == S.Stay(c)
  {
  }

  lemma OwedServer(json: Json, s: System, m: ServerStep, request: Request, made: seq<Step>)
    requires Faithful(json) && L.Intact(json, s.c2s) && RelayOk(s) && QueueOk(s)
    requires P.Control(s.server.task.conn, s.server.task.trace)
    requires s.c2s.sent != [] ==> s.c2s.sent[0] == Run(request)
    requires Owed(s.server.task.trace, request, made, s.stop) && OnServer(m) in made
    ensures Owed(MoveServer(json, s, m).server.task.trace, request, made, s.stop)
  {
    TaskMoves(json, s, m);
    var o := ServerOffer(json, s, m);
    if o.Offer? {
      var c, tr := s.server.task.conn, s.server.task.trace;
      OfferIsFromPumps(json, s, m);
      OfferSources(json, s, m);
      FirstIsTheRequest(json, s, request, m);
      ReactIsSourced(c, tr, o.input);
      OwedAdds(c, tr, o.input, S.React(c, o.input).effect, request, made, s.stop);
    }
  }

  lemma OriginServer(json: Json, s: System, m: ServerStep, request: Request, made: seq<Step>)
    requires Faithful(json) && L.Intact(json, s.c2s) && RelayOk(s) && QueueOk(s)
    requires P.Control(s.server.task.conn, s.server.task.trace) && Origin(s, request, made)
    ensures Origin(MoveServer(json, s, m), request, made + [OnServer(m)])
  {
    var tr := s.server.task.trace;
    OwedMore(tr, request, made, s.stop, OnServer(m), s.stop);
    OwedServer(json, s, m, request, made + [OnServer(m)]);
    TaskMoves(json, s, m);
    var o := ServerOffer(json, s, m);
    if s.server.task.conn.phase.Done? && o.Offer? {
      DoneStays(s.server.task.conn, o.input);
    }
  }

  // ------------------------------------------------------------- the client

  lemma EofNeedsTheEnd(json: Json, s: System, m: ClientStep)
    ensures var o := ClientOffer(json, s, m); o.Offer? && o.input == C.FrameEnd ==> ServerClosed(s)
  {
  }

  lemma EofByFrameEnd(c: C.Client, i: C.Input)
    requires !c.phase.Finished?
    ensures C.React(c, i).client.phase == C.Finished(C.ByEof) ==> i == C.FrameEnd
  {
  }

  lemma ClientEnds(json: Json, s: System, m: ClientStep)
    ensures var t := MoveClient(json, s, m);
            && t.server == s.server && t.stop == s.stop && t.serverUp == s.serverUp
            && (EndedBy(t.host.session, C.ByEof) && !EndedBy(s.host.session, C.ByEof) ==> ServerClosed(s))
  {
    ClientFrame(json, s, m);
    var o := ClientOffer(json, s, m);
    if o.Offer? {
      ClientOfferFrame(json, s, m);
      ReactShows(json, o.world, o.input);
      ClientKeepsFlags(json, s, m);
      EofNeedsTheEnd(json, s, m);
      StepParts(s.host.session, o.input);
      if s.host.session.client.phase.Finished? {
        ClientEdge(s.host.session.client, o.input);
      } else {
        EofByFrameEnd(s.host.session.client, o.input);
      }
    }
  }

  lemma ClientKeepsFlags(json: Json, s: System, m: ClientStep)
    ensures var t := MoveClient(json, s, m); t.stop == s.stop && t.serverUp == s.serverUp
  {
  }

  lemma RequestStaysFirst(json: Json, s: System, m: ClientStep, request: Request)
    requires Faithful(json) && HostOk(s) && (s.c2s.sent != [] ==> s.c2s.sent[0] == Run(request))
    ensures var sent := MoveClient(json, s, m).c2s.sent; sent != [] ==> sent[0] == Run(request)
  {
    HostClient(json, s, m);
    var grew, x := ClientSends(json, s, m);
  }

  lemma OriginClient(json: Json, s: System, m: ClientStep, request: Request, made: seq<Step>)
    requires Faithful(json) && HostOk(s) && Origin(s, request, made)
    ensures Origin(MoveClient(json, s, m), request, made + [OnClient(m)])
  {
    OwedMore(s.server.task.trace, request, made, s.stop, OnClient(m), s.stop);
    ClientEnds(json, s, m);
    RequestStaysFirst(json, s, m, request);
  }

  // ------------------------------------------------------------------ runs

  lemma ElsewhereKeeps(json: Json, s: System, st: Step)
    requires !st.OnServer? && !st.OnClient?
    ensures var t := Next(json, s, st);
            && t.server.task == s.server.task && t.c2s.sent == s.c2s.sent && t.host.session == s.host.session
            && (s.stop ==> t.stop) && (t.serverUp ==> s.serverUp)
  {
    TaskElsewhere(json, s, st);
    if st.StdinPump? {
      StdinPumpKeeps(s.host, st.h);
    } else {
      HostElsewhere(json, s, st);
    }
  }

  lemma OriginElsewhere(json: Json, s: System, st: Step, request: Request, made: seq<Step>)
    requires !st.OnServer? && !st.OnClient? && Origin(s, request, made)
    ensures Origin(Next(json, s, st), request, made + [st])
  {
    ElsewhereKeeps(json, s, st);
    OwedMore(s.server.task.trace, request, made, s.stop, st, Next(json, s, st).stop);
  }

  lemma OriginIdle(s: System, st: Step, request: Request, made: seq<Step>)
    requires Origin(s, request, made)
    ensures Origin(s, request, made + [st])
  {
    OwedMore(s.server.task.trace, request, made, s.stop, st, s.stop);
  }

  lemma OriginNext(json: Json, s: System, st: Step, request: Request, made: seq<Step>)
    requires Faithful(json) && Reached(json, s) && Origin(s, request, made)
    ensures Origin(Next(json, s, st), request, made + [st])
  {
    if st.OnServer? {
      ReachedParts(json, s);
      OriginOnServer(json, s, st.s, request, made);
    } else if st.OnClient? {
      ReachedHost(json, s);
      OriginOnClient(json, s, st.c, request, made);
    } else {
      OriginElsewhere(json, s, st, request, made);
    }
  }

  lemma ReachedParts(json: Json, s: System)
    requires Faithful(json) && Reached(json, s)
    ensures L.Intact(json, s.c2s) && RelayOk(s) && QueueOk(s) && P.Control(s.server.task.conn, s.server.task.trace)
  {
    ReachedInvariant(json, s);
  }

  lemma OriginOnServer(json: Json, s: System, m: ServerStep, request: Request, made: seq<Step>)
    requires Faithful(json) && L.Intact(json, s.c2s) && RelayOk(s) && QueueOk(s)
    requires P.Control(s.server.task.conn, s.server.task.trace) && Origin(s, request, made)
    ensures Origin(Next(json, s, OnServer(m)), request, made + [OnServer(m)])
  {
    if s.serverUp {
      OriginServer(json, s, m, request, made);
    } else {
      OriginIdle(s, OnServer(m), request, made);
    }
  }

  lemma OriginOnClient(json: Json, s: System, m: ClientStep, request: Request, made: seq<Step>)
    requires Faithful(json) && HostOk(s) && Origin(s, request, made)
    ensures Origin(Next(json, s, OnClient(m)), request, made + [OnClient(m)])
  {
    if s.clientUp {
      OriginClient(json, s, m, request, made);
    } else {
      OriginIdle(s, OnClient(m), request, made);
    }
  }

  lemma ReachedHost(json: Json, s: System)
    requires Faithful(json) && Reached(json, s)
    ensures HostOk(s)
  {
    ReachedInvariant(json, s);
  }

  lemma {:induction false} ExecuteSnoc(json: Json, s: System, steps: seq<Step>, st: Step)
    ensures Execute(json, s, steps + [st]) == Next(json, Execute(json, s, steps), st)
    decreases |steps|
  {
    if steps == [] {
      assert steps + [st] == [st] && [st][1..] == [];
    } else {
      assert (steps + [st])[1..] == steps[1..] + [st];
      ExecuteSnoc(json, Next(json, s, steps[0]), steps[1..], st);
    }
  }

  lemma {:induction false} OriginAlways(json: Json, request: Request, steps: seq<Step>)
    requires Faithful(json)
    ensures Origin(Execute(json, Begin(json, request), steps), request, steps)
    decreases |steps|
  {
    if steps != [] {
      var front, last := steps[..|steps| - 1], steps[|steps| - 1];
      var s := Execute(json, Begin(json, request), front);
      OriginAlways(json, request, front);
      ExecuteSnoc(json, Begin(json, request), front, last);
      assert steps == front + [last];
      assert Reached(json, s);
      OriginNext(json, s, last, request, front);
    }
  }

  // ------------------------------------------------------------ the guarantees

  /** In every run the request the server accepts, if any, is the one the client sent. */
  lemma AcceptedIsSent(json: Json, request: Request, steps: seq<Step>)
    requires Faithful(json)
    ensures forall e <- Execute(json, Begin(json, request), steps).server.task.trace ::
              e.Accepted? ==> e.request == request
  {
    OriginAlways(json, request, steps);
  }

  lemma {:induction false} SaidIsEmitted(tr: seq<S.Effect>, m: Message)
    ensures m in S.Emits(tr) ==> S.Emit(m) in tr
    decreases |tr|
  {
    if tr != [] {
      SaidIsEmitted(tr[..|tr| - 1], m);
    }
  }

  lemma TakenIsEmitted(json: Json, s: System, m: Message)
    requires s.s2c.sent == Accepted(json, S.Emits(s.server.task.trace)) && m in s.s2c.sent
    ensures S.Emit(m) in s.server.task.trace
  {
    AcceptedAreSaid(json, S.Emits(s.server.task.trace), m);
    SaidIsEmitted(s.server.task.trace, m);
  }

  /** A client that ends on an `Exit` although no child was started ends with 127 or 126, and then the
      server's launch of its request found the directory and a good environment, and the system answered
      that the command is missing, or not permitted, respectively. */
  lemma ExitWithoutChild(json: Json, request: Request, steps: seq<Step>, command: string)
    requires Faithful(json)
    requires var s := Execute(json, Begin(json, request), steps);
             EndedByExit(s.host.session) && S.ChildStarted !in s.server.task.trace
    ensures var code := C.Reported(Execute(json, Begin(json, request), steps).host.session.client.phase.cause, command);
            && (forall entry <- request.env :: '=' in entry)
            && ((code == 127 && OnServer(Launch(true, S.NotFound)) in steps)
                || (code == 126 && OnServer(Launch(true, S.PermissionDenied)) in steps))
  {
    var s := Execute(json, Begin(json, request), steps);
    OriginAlways(json, request, steps);
    assert Reached(json, s);
    RefusedExit(json, s, request, steps, command);
  }

  lemma ReachedSpeech(json: Json, s: System)
    requires Faithful(json) && Reached(json, s)
    ensures Spoken(json, s) && ShownOk(s)
  {
    ReachedInvariant(json, s);
  }

  lemma RefusedExit(json: Json, s: System, request: Request, made: seq<Step>, command: string)
    requires Faithful(json) && Reached(json, s) && Origin(s, request, made)
    requires EndedByExit(s.host.session) && S.ChildStarted !in s.server.task.trace
    ensures var code := C.Reported(s.host.session.client.phase.cause, command);
            && (forall entry <- request.env :: '=' in entry)
            && ((code == 127 && OnServer(Launch(true, S.NotFound)) in made)
                || (code == 126 && OnServer(Launch(true, S.PermissionDenied)) in made))
  {
    var e := s.host.session.client.phase.cause.exit;
    ExitWasSaid(json, s, e);
    OwedExit(s.server.task.trace, request, made, s.stop, e, command);
  }

  lemma ExitWasSaid(json: Json, s: System, e: ExitMsg)
    requires Faithful(json) && Reached(json, s) && EndedBy(s.host.session, C.ByExit(e))
    ensures S.Emit(Exit(e)) in s.server.task.trace
  {
    ReachedSaid(json, s);
    AfterExit(json, s);
    TakenIsEmitted(json, s, Exit(e));
  }

  lemma OwedExit(tr: seq<S.Effect>, request: Request, made: seq<Step>, stop: bool, e: ExitMsg, command: string)
    requires Owed(tr, request, made, stop) && S.Emit(Exit(e)) in tr && S.ChildStarted !in tr
    ensures var code := C.Reported(C.ByExit(e), command);
            && (forall entry <- request.env :: '=' in entry)
            && ((code == 127 && OnServer(Launch(true, S.NotFound)) in made)
                || (code == 126 && OnServer(Launch(true, S.PermissionDenied)) in made))
  {
    assert Refused(e, request, made);
    P.GoodEnv(request.env);
  }

  lemma TakenLast(json: Json, s: System, m: Message)
    requires Spoken(json, s) && s.s2c.got <= |s.s2c.sent| && DecidedBy(s.s2c.sent[..s.s2c.got], m)
    ensures S.Emit(m) in s.server.task.trace
  {
    assert m in s.s2c.sent[..s.s2c.got];
    TakenIsEmitted(json, s, m);
  }

  /** The verdicts other than an `Exit`. An error the client reports is the one the server said, and the
      first decisive frame; a client that leaves with 143 on a notice leaves a server whose shutdown was
      signalled; and one that leaves with 143 on the end of the stream had taken no decisive frame, and its
      connection's task, or the server, was over. */
  lemma OtherVerdicts(json: Json, s: System, command: string)
    requires Faithful(json) && Reached(json, s) && s.host.session.client.phase.Finished?
    ensures s.s2c.got <= |s.s2c.sent|
    ensures var cause := s.host.session.client.phase.cause;
            var taken := s.s2c.sent[..s.s2c.got];
            && (cause.ByError? ==> DecidedBy(taken, Error(cause.message)) && C.Reported(cause, command) == 1
                                   && S.Emit(Error(cause.message)) in s.server.task.trace)
            && (cause.ByStopping? ==> DecidedBy(taken, ServerStopping) && C.Reported(cause, command) == 143 && s.stop)
            && (cause.ByEof? ==> Undecided(taken) && C.Reported(cause, command) == 143 && ServerClosed(s))
  {
    var request: Request, steps: seq<Step> :| s == Execute(json, Begin(json, request), steps);
    OriginAlways(json, request, steps);
    ReachedSpeech(json, s);
    VerdictsOf(json, s, request, steps, command);
  }

  lemma VerdictsOf(json: Json, s: System, request: Request, made: seq<Step>, command: string)
    requires Spoken(json, s) && ShownOk(s) && Origin(s, request, made) && s.host.session.client.phase.Finished?
    ensures var cause := s.host.session.client.phase.cause;
            var taken := s.s2c.sent[..s.s2c.got];
            && (cause.ByError? ==> DecidedBy(taken, Error(cause.message)) && C.Reported(cause, command) == 1
                                   && S.Emit(Error(cause.message)) in s.server.task.trace)
            && (cause.ByStopping? ==> DecidedBy(taken, ServerStopping) && C.Reported(cause, command) == 143 && s.stop)
            && (cause.ByEof? ==> Undecided(taken) && C.Reported(cause, command) == 143 && ServerClosed(s))
  {
    var cause := s.host.session.client.phase.cause;
    if cause.ByError? {
      TakenLast(json, s, Error(cause.message));
    } else if cause.ByStopping? {
      TakenLast(json, s, ServerStopping);
    }
  }
}
