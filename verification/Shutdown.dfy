/** `run` and `accept_loop` at shutdown: an acceptor that spawns and registers connection tasks, and
    a runner that broadcasts the stop, aborts and joins the acceptor, takes the registry and waits
    for what was in it. Each step is what runs between two points where the other side can come in. */
module Shutdown {
  import opened Wrappers

  datatype Acceptor =
    | Accepting              // awaiting `accept()`: the only place where an abort takes effect
    | Registering(id: nat)   // the task is spawned, its handle not yet pushed
    | AcceptorOver

  datatype Runner =
    | AwaitingSignal
    | Signalled
    | Notified
    | Aborting
    | Joined
    | Draining(at: nat)
    | Drained(timedOut: bool)
    | RunnerOver(timedOut: bool)

  datatype State = State(
    acceptor: Acceptor,
    runner: Runner,
    stop: bool,                      // the value of the watch channel
    abort: bool,                     // `acceptor.abort()` was called
    registry: seq<nat>,              // the shared Vec of handles
    spawned: seq<nat>,               // every connection task ever spawned, in order
    finished: set<nat>,              // tasks that ran to completion
    snapshot: Option<seq<nat>>,      // what the drain took
    socket: bool)                    // the socket file is there

  const BOUND := State(Accepting, AwaitingSignal, false, false, [], [], {}, None, true)

  datatype Step =
    | Connect               // `accept()` yields a stream and the task is spawned
    | Push
    | AcceptFails
    | Cancel
    | TaskEnds(id: nat)
    | SignalArrives
    | Broadcast
    | Abort
    | Join
    | TakeHandles
    | AwaitHandle
    | Timeout
    | EndDrain
    | RemoveSocket

  /** One step of either task or of the environment; `grace`: the drain is longer than zero seconds.
      A step that is not enabled changes nothing. */
  function Next(s: State, grace: bool, st: Step): State {
    match st
    case Connect =>
      if s.acceptor.Accepting?
      then s.(spawned := s.spawned + [|s.spawned|], acceptor := Registering(|s.spawned|))
      else s
    case Push =>
      if s.acceptor.Registering? then s.(registry := s.registry + [s.acceptor.id], acceptor := Accepting) else s
    case AcceptFails => if s.acceptor.Accepting? then s.(acceptor := AcceptorOver) else s
    case Cancel => if s.acceptor.Accepting? && s.abort then s.(acceptor := AcceptorOver) else s
    case TaskEnds(id) => if id in s.spawned then s.(finished := s.finished + {id}) else s
    case SignalArrives => if s.runner.AwaitingSignal? then s.(runner := Signalled) else s
    case Broadcast => if s.runner.Signalled? then s.(runner := Notified, stop := true) else s
    case Abort => if s.runner.Notified? then s.(runner := Aborting, abort := true) else s
    case Join => if s.runner.Aborting? && s.acceptor.AcceptorOver? then s.(runner := Joined) else s
    case TakeHandles =>
      if s.runner.Joined? then s.(runner := Draining(0), snapshot := Some(s.registry), registry := []) else s
    case AwaitHandle =>
      if s.runner.Draining? && grace && s.snapshot.Some? && s.runner.at < |s.snapshot.value|
         && s.snapshot.value[s.runner.at] in s.finished
      then s.(runner := Draining(s.runner.at + 1))
      else s
    case Timeout => if s.runner.Draining? && grace then s.(runner := Drained(true)) else s
    case EndDrain =>
      if s.runner.Draining? && s.snapshot.Some? && (grace ==> s.runner.at == |s.snapshot.value|)
      then s.(runner := Drained(false))
      else s
    case RemoveSocket =>
      if s.runner.Drained? then s.(runner := RunnerOver(s.runner.timedOut), socket := false) else s
  }

  function Execute(s: State, grace: bool, steps: seq<Step>): State
    decreases |steps|
  {
    if steps == [] then s else Execute(Next(s, grace, steps[0]), grace, steps[1..])
  }

  /** The shared state as the two tasks mutate it. */
  class ServerRun {
    const grace: bool
    var acceptor: Acceptor
    var runner: Runner
    var stop: bool
    var abort: bool
    var registry: seq<nat>
    var spawned: seq<nat>
    var finished: set<nat>
    var snapshot: Option<seq<nat>>
    var socket: bool

    ghost function View(): State
      reads this
    {
      State(acceptor, runner, stop, abort, registry, spawned, finished, snapshot, socket)
    }

    constructor (grace: bool)
      ensures View() == BOUND && this.grace == grace
    {
      this.grace := grace;
      acceptor, runner, stop, abort := Accepting, AwaitingSignal, false, false;
      registry, spawned, finished, snapshot, socket := [], [], {}, None, true;
    }

    /** The acceptor's side, and what happens to the tasks it spawned. */
    method AcceptorStep(st: Step)
      requires st.Connect? || st.Push? || st.AcceptFails? || st.Cancel? || st.TaskEnds?
      modifies this
      ensures View() == Next(old(View()), grace, st)
    {
      match st {
        case Connect =>
          if acceptor.Accepting? {
            var id := |spawned|;
            spawned := spawned + [id];
            acceptor := Registering(id);
          }
        case Push =>
          if acceptor.Registering? {
            registry := registry + [acceptor.id];
            acceptor := Accepting;
          }
        case AcceptFails =>
          if acceptor.Accepting? { acceptor := AcceptorOver; }
        case Cancel =>
          if acceptor.Accepting? && abort { acceptor := AcceptorOver; }
        case TaskEnds(id) =>
          if id in spawned { finished := finished + {id}; }
      }
    }

    /** The runner's side, from the signal to the removed socket. */
    method RunnerStep(st: Step)
      requires !st.Connect? && !st.Push? && !st.AcceptFails? && !st.Cancel? && !st.TaskEnds?
      modifies this
      ensures View() == Next(old(View()), grace, st)
    {
      match st {
        case SignalArrives =>
          if runner.AwaitingSignal? { runner := Signalled; }
        case Broadcast =>
          if runner.Signalled? { runner, stop := Notified, true; }
        case Abort =>
          if runner.Notified? { runner, abort := Aborting, true; }
        case Join =>
          if runner.Aborting? && acceptor.AcceptorOver? { runner := Joined; }
        case TakeHandles =>
          if runner.Joined? {
            snapshot := Some(registry);
            registry := [];
            runner := Draining(0);
          }
        case AwaitHandle =>
          if runner.Draining? && grace && snapshot.Some? && runner.at < |snapshot.value|
             && snapshot.value[runner.at] in finished {
            runner := Draining(runner.at + 1);
          }
        case Timeout =>
          if runner.Draining? && grace { runner := Drained(true); }
        case EndDrain =>
          if runner.Draining? && snapshot.Some? && (grace ==> runner.at == |snapshot.value|) {
            runner := Drained(false);
          }
        case RemoveSocket =>
          if runner.Drained? {
            runner := RunnerOver(runner.timedOut);
            socket := false;
          }
      }
    }

    method Drive(steps: seq<Step>)
      modifies this
      ensures View() == Execute(old(View()), grace, steps)
    {
      ghost var whole := Execute(View(), grace, steps);
      var k := 0;
      while k < |steps|
        invariant 0 <= k <= |steps|
        invariant Execute(View(), grace, steps[k..]) == whole
      {
        var st := steps[k];
        assert steps[k..][0] == st && steps[k..][1..] == steps[k + 1..];
        if st.Connect? || st.Push? || st.AcceptFails? || st.Cancel? || st.TaskEnds? {
          AcceptorStep(st);
        } else {
          RunnerStep(st);
        }
        k := k + 1;
      }
    }
  }

  // ----------------------------------------------------------- invariants

  predicate BeforeJoin(r: Runner) {
    r.AwaitingSignal? || r.Signalled? || r.Notified? || r.Aborting?
  }

  ghost predicate Numbered(ids: seq<nat>) {
    forall i :: 0 <= i < |ids| ==> ids[i] == i
  }

  ghost predicate Registered(s: State) {
    && Numbered(s.spawned)
    // every task spawned is registered, or is about to be
    && (s.snapshot.None? ==> s.spawned == s.registry + if s.acceptor.Registering? then [s.acceptor.id] else [])
    && (s.snapshot.Some? ==> s.snapshot.value == s.spawned)
    && (s.snapshot.None? <==> BeforeJoin(s.runner) || s.runner.Joined?)
    && (!BeforeJoin(s.runner) ==> s.acceptor.AcceptorOver?)
    && (s.runner.AwaitingSignal? || s.runner.Signalled? <==> !s.stop)
    && (s.abort ==> s.stop)
    && (s.runner.Aborting? ==> s.abort)
    && (s.socket <==> !s.runner.RunnerOver?)
  }

  /** How far the drain has come: all handles before `at` are done; all of them, if it ended in time. */
  ghost predicate Awaited(s: State, grace: bool) {
    && (s.runner.Draining? ==>
          s.snapshot.Some? && s.runner.at <= |s.snapshot.value|
          && forall i :: 0 <= i < s.runner.at ==> s.snapshot.value[i] in s.finished)
    && ((s.runner.Drained? || s.runner.RunnerOver?) && grace && !s.runner.timedOut ==>
          s.snapshot.Some? && forall i :: 0 <= i < |s.snapshot.value| ==> s.snapshot.value[i] in s.finished)
    && ((s.runner.Drained? || s.runner.RunnerOver?) && !grace ==> !s.runner.timedOut)
  }

  lemma RegisteredNext(s: State, grace: bool, st: Step)
    requires Registered(s)
    ensures Registered(Next(s, grace, st))
  {
  }

  lemma AwaitedNext(s: State, grace: bool, st: Step)
    requires Registered(s) && Awaited(s, grace)
    ensures Awaited(Next(s, grace, st), grace)
  {
  }

  lemma {:induction false} Always(s: State, grace: bool, steps: seq<Step>)
    requires Registered(s) && Awaited(s, grace)
    ensures Registered(Execute(s, grace, steps)) && Awaited(Execute(s, grace, steps), grace)
    decreases |steps|
  {
    if steps != [] {
      RegisteredNext(s, grace, steps[0]);
      AwaitedNext(s, grace, steps[0]);
      Always(Next(s, grace, steps[0]), grace, steps[1..]);
    }
  }

  /** Whatever the interleaving: once the drain has taken the registry, it holds the handle of every
      connection ever spawned, each once and in order; none is spawned afterwards; and every one of
      them finds the stop flag up. */
  lemma NoConnectionIsLost(grace: bool, steps: seq<Step>, more: seq<Step>)
    requires Execute(BOUND, grace, steps).snapshot.Some?
    ensures var s := Execute(BOUND, grace, steps);
            var t := Execute(s, grace, more);
            && s.snapshot.value == s.spawned
            && (forall i, j :: 0 <= i < j < |s.spawned| ==> s.spawned[i] != s.spawned[j])
            && t.spawned == s.spawned && t.snapshot == s.snapshot
            && s.stop && t.stop
  {
    Always(BOUND, grace, steps);
    var s := Execute(BOUND, grace, steps);
    Always(s, grace, more);
    Settled(s, grace, more);
  }

  /** After the snapshot nothing more is spawned, and the flag stays up. */
  lemma {:induction false} Settled(s: State, grace: bool, more: seq<Step>)
    requires Registered(s) && s.snapshot.Some?
    ensures var t := Execute(s, grace, more);
            t.spawned == s.spawned && t.snapshot == s.snapshot && t.stop
    decreases |more|
  {
    if more != [] {
      RegisteredNext(s, grace, more[0]);
      Settled(Next(s, grace, more[0]), grace, more[1..]);
    }
  }

  /** The socket file goes last: when it is gone, the stop was announced and the acceptor is over; and
      unless the drain timed out (or had no time at all), every connection has run to its end. */
  lemma SocketGoesLast(grace: bool, steps: seq<Step>)
    ensures var s := Execute(BOUND, grace, steps);
            !s.socket ==>
              && s.stop && s.acceptor.AcceptorOver?
              && s.runner.RunnerOver?
              && (grace && !s.runner.timedOut ==> forall id <- s.spawned :: id in s.finished)
  {
    Always(BOUND, grace, steps);
  }

  // ------------------------------------------------------------- progress

  /** A next step on the way to the end. */
  function Toward(s: State, grace: bool): Step
    requires s.runner.Draining? ==> s.snapshot.Some? && s.runner.at <= |s.snapshot.value|
  {
    match s.runner
    case AwaitingSignal => SignalArrives
    case Signalled => Broadcast
    case Notified => Abort
    case Aborting => if s.acceptor.Registering? then Push else if s.acceptor.Accepting? then Cancel else Join
    case Joined => TakeHandles
    case Draining(at) =>
      if !grace || at == |s.snapshot.value| then EndDrain
      else if s.snapshot.value[at] in s.finished then AwaitHandle
      else TaskEnds(s.snapshot.value[at])
    case _ => RemoveSocket
  }

  function Rank(s: State): nat {
    match s.runner
    case AwaitingSignal => 9
    case Signalled => 8
    case Notified => 7
    case Aborting => if s.acceptor.Registering? then 6 else if s.acceptor.Accepting? then 5 else 4
    case Joined => 3
    case Draining(_) => 2
    case Drained(_) => 1
    case RunnerOver(_) => 0
  }

  /** What is left to await of the drain, counting a task that still runs twice. */
  function Left(s: State): nat {
    if s.runner.Draining? && s.snapshot.Some? && s.runner.at < |s.snapshot.value|
    then 2 * (|s.snapshot.value| - s.runner.at) + if s.snapshot.value[s.runner.at] in s.finished then 0 else 1
    else 0
  }

  predicate InTime(r: Runner) {
    r.Drained? || r.RunnerOver? ==> !r.timedOut
  }

  /** The runner's own steps behind the broadcast. */
  predicate Own(st: Step) {
    st.Abort? || st.Join? || st.TakeHandles? || st.AwaitHandle? || st.EndDrain? || st.RemoveSocket?
  }

  /** Nothing is outstanding that the runner has to wait for. */
  ghost predicate Quiet(s: State, grace: bool) {
    && s.stop && s.acceptor.AcceptorOver?
    && (grace ==> forall id <- s.spawned :: id in s.finished)
  }

  lemma Nearer(s: State, grace: bool)
    requires Registered(s) && Awaited(s, grace) && InTime(s.runner) && !s.runner.RunnerOver?
    ensures var t := Next(s, grace, Toward(s, grace));
            InTime(t.runner) && (Rank(t) < Rank(s) || (Rank(t) == Rank(s) && Left(t) < Left(s)))
  {
  }

  lemma QuietNext(s: State, grace: bool)
    requires Registered(s) && Awaited(s, grace) && Quiet(s, grace)
    ensures Own(Toward(s, grace)) && Quiet(Next(s, grace, Toward(s, grace)), grace)
  {
  }

  lemma {:induction false} ToTheEnd(s: State, grace: bool) returns (more: seq<Step>)
    requires Registered(s) && Awaited(s, grace) && InTime(s.runner)
    ensures Execute(s, grace, more).runner == RunnerOver(false)
    ensures forall st <- more :: !st.Timeout? && !st.Connect? && !st.AcceptFails?
    ensures Quiet(s, grace) ==> forall st <- more :: Own(st)
    decreases Rank(s), Left(s)
  {
    if s.runner.RunnerOver? {
      more := [];
    } else {
      var st := Toward(s, grace);
      Nearer(s, grace);
      RegisteredNext(s, grace, st);
      AwaitedNext(s, grace, st);
      if Quiet(s, grace) {
        QuietNext(s, grace);
      }
      var rest := ToTheEnd(Next(s, grace, st), grace);
      more := [st] + rest;
      assert more[1..] == rest;
    }
  }

  /** The shutdown never gets stuck: from every point of every run at which the drain has not timed out, it
      can still come to its end in time, with the socket file removed and every connection run to its end
      if there was time for that; and once the stop is announced, the acceptor over and no connection
      running, the runner's own steps suffice. */
  lemma EndsInTime(grace: bool, steps: seq<Step>) returns (more: seq<Step>)
    requires InTime(Execute(BOUND, grace, steps).runner)
    ensures var s := Execute(BOUND, grace, steps);
            var t := Execute(s, grace, more);
            && t.runner == RunnerOver(false) && !t.socket && t.stop && t.acceptor.AcceptorOver?
            && (grace ==> forall id <- t.spawned :: id in t.finished)
            && (forall st <- more :: !st.Timeout?)
            && (s.stop && s.acceptor.AcceptorOver? && (grace ==> forall id <- s.spawned :: id in s.finished) ==>
                  forall st <- more :: Own(st))
  {
    var s := Execute(BOUND, grace, steps);
    Always(BOUND, grace, steps);
    more := ToTheEnd(s, grace);
    Always(s, grace, more);
  }
}
