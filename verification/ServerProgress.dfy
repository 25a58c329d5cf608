/** What a server gets done: a start brings it up, a connection is served, and a stop ends with everything closed. */
module ServerProgress {
  import opened ServerProtocol

  // ---- a stop is carried through

  /** The stopping thread is on its way, with a server to stop. */
  predicate AtWork(s: State) { s.running && s.stopInOperation && !s.stopper.NoStopper? }

  lemma Working(s: State)
    requires Inv(s) && AtWork(s)
    ensures s.start.NoStart? && !Lone(s) && CanStop(s) && (s.context.Running? || (s.context.Stopped? && Quiet(s)))
  {
    hide Counts, Taken, Claims, DistinctIds, Asked, Listened;
  }

  /** A stop of a server that is up, by a caller or by a listener that fails, sets a stopping thread to work. */
  lemma StopTakes(s: State)
    requires Inv(s) && CanStop(s) && s.context.Running?
    ensures var r := Do(s, RequestStop);
      && AtWork(r) && r.open == s.open && r.listeners == s.listeners && r.context == s.context
      && (!s.stopInOperation ==> r.stopper == Closing) && (s.stopInOperation ==> r == s)
    ensures forall l :: MoveEnabled(s, l, ListenerStops) ==>
      && AtWork(DoMove(s, l, ListenerStops))
      && DoMove(s, l, ListenerStops).stopper == (if s.stopInOperation then s.stopper else Closing)
  {
    hide Counts, Taken, Claims, DistinctIds, Asked, Listened, Quiescence;
  }

  /** Only the thread itself moves it on, one step nearer to the end each time; only its last step ends its work. */
  lemma StepKeepsWork(s: State, step: Step)
    requires Inv(s) && AtWork(s) && Enabled(s, step)
    ensures !Collides(s, step)
    ensures var r := Do(s, step);
      if step == Stopping(PublishStopped) then !r.running && r.stopper.NoStopper?
      else AtWork(r) && (if step.Stopping? then ToGo(r.stopper) < ToGo(s.stopper) else r.stopper == s.stopper)
  {
    hide Counts, Taken, Claims, DistinctIds, Asked, Listened, Quiescence;
  }

  function StopperSteps(steps: seq<Step>): nat {
    if steps == [] then 0 else StopperSteps(steps[..|steps| - 1]) + if steps[|steps| - 1].Stopping? then 1 else 0
  }

  /** In every later run the thread stays at work until it publishes, and takes seven steps at most before that. */
  lemma {:induction false} WorkStays(s: State, steps: seq<Step>)
    requires Inv(s) && AtWork(s) && Path(s, steps) && Stopping(PublishStopped) !in steps
    ensures var e := End(s, steps); Inv(e) && AtWork(e) && StopperSteps(steps) + ToGo(e.stopper) <= ToGo(s.stopper) <= 7
    decreases |steps|
  {
    hide Inv, AtWork, Enabled, Do, Collides;
    if steps == [] {
    } else {
      var front, last := steps[..|steps| - 1], steps[|steps| - 1];
      WorkStays(s, front);
      StepKeepsWork(End(s, front), last);
      StepKeeps(End(s, front), last);
    }
  }

  // A listener finds its way out.

  /** What a listener does next when the server stops: closing its acceptor wakes it as a fatal error does. */
  function WayOut(pc: Listener): Move {
    match pc
    case Top => LoadStop
    case Accepting => AcceptFatal
    case Accepted => LoadStopAgain
    case Creating => Reject
    case Numbered(_) => SetupFails
    case Counted(_) => EnterSession
    case Failing => ListenerStops
    case Leaving => Leave
  }

  function FromDoor(pc: Listener): nat {
    match pc
    case Leaving => 1
    case Top => 2
    case Failing => 2
    case _ => 3
  }

  lemma WayOutStep(s: State, l: nat)
    requires Inv(s) && AtWork(s) && s.context.Running? && l in s.listeners
    ensures var move := WayOut(s.listeners[l]);
      && MoveEnabled(s, l, move) && var r := DoMove(s, l, move);
      && r.context == s.context && r.open == s.open && r.erased == s.erased && r.stopper == s.stopper
      && (if l in r.listeners then |r.listeners| == |s.listeners| && FromDoor(r.listeners[l]) < FromDoor(s.listeners[l])
          else |r.listeners| < |s.listeners|)
  {
    hide Counts, Taken, Claims, DistinctIds, Asked, Listened, Quiescence;
  }

  /** Steps of listeners, sessions and the stopping thread alone. */
  predicate Shutting(steps: seq<Step>) { forall step :: step in steps ==> ShuttingStep(step) }

  predicate ShuttingStep(step: Step) { !step.Starting? && !step.RequestStop? && !step.Drain? }

  /** A run of such steps from `s`, at whose end the thread is where it was. */
  predicate Leads(s: State, steps: seq<Step>) {
    Path(s, steps) && Shutting(steps) && var e := End(s, steps);
    Inv(e) && AtWork(e) && e.context == s.context && e.stopper == s.stopper
  }

  lemma LeadsNowhere(s: State)
    requires Inv(s) && AtWork(s)
    ensures Leads(s, []) && End(s, []) == s
  {}

  lemma LeadsOn(s: State, step: Step, rest: seq<Step>)
    requires Inv(s) && AtWork(s) && Enabled(s, step) && ShuttingStep(step) && !step.Stopping?
    requires Leads(Do(s, step), rest)
    requires Do(s, step).context == s.context && Do(s, step).stopper == s.stopper
    ensures Leads(s, [step] + rest) && End(s, [step] + rest) == End(Do(s, step), rest)
  {
    hide Inv, AtWork, Path, End, Enabled, Do;
    OneStep(s, step);
    Joined(s, [step], rest);
  }

  lemma KeepsWorking(s: State, step: Step)
    requires Inv(s) && AtWork(s) && Enabled(s, step) && !step.Stopping?
    ensures Inv(Do(s, step)) && AtWork(Do(s, step)) && Do(s, step).stopper == s.stopper
  {
    hide Inv, AtWork, Enabled, Do, Collides;
    StepKeepsWork(s, step);
    StepKeeps(s, step);
  }

  lemma ListenerLeaves(s: State, l: nat) returns (steps: seq<Step>)
    requires Inv(s) && AtWork(s) && s.context.Running? && l in s.listeners
    ensures Leads(s, steps) && |End(s, steps).listeners| < |s.listeners|
    decreases FromDoor(s.listeners[l])
  {
    hide Inv, AtWork, Leads, FromDoor, WayOut, MoveEnabled, DoMove;
    WayOutStep(s, l);
    var step := Listening(l, WayOut(s.listeners[l]));
    var r := Do(s, step);
    KeepsWorking(s, step);
    var rest := [];
    if l in r.listeners {
      rest := ListenerLeaves(r, l);
    } else {
      LeadsNowhere(r);
    }
    LeadsOn(s, step, rest);
    steps := [step] + rest;
  }

  lemma ListenersLeave(s: State) returns (steps: seq<Step>)
    requires Inv(s) && AtWork(s) && s.context.Running?
    ensures Leads(s, steps) && End(s, steps).listeners == map[]
    decreases |s.listeners|
  {
    hide Inv, AtWork, Path, End, Shutting;
    if s.listeners == map[] {
      LeadsNowhere(s);
      steps := [];
    } else {
      var l :| l in s.listeners;
      steps := ListenerLeaves(s, l);
      var rest := ListenersLeave(End(s, steps));
      LeadsBoth(s, steps, rest);
      steps := steps + rest;
    }
  }

  lemma LeadsBoth(s: State, a: seq<Step>, b: seq<Step>)
    requires Leads(s, a) && Leads(End(s, a), b)
    ensures Leads(s, a + b) && End(s, a + b) == End(End(s, a), b)
  {
    hide Inv, AtWork, Path, End, Enabled, Do;
    Joined(s, a, b);
  }

  // With the listeners gone the sessions end.

  lemma SessionStep(s: State, id: Id)
    requires Inv(s) && AtWork(s) && s.context.Running? && s.listeners == map[] && id in s.open
    ensures var step := if id in s.erased then ReleaseSession(id) else EraseSession(id);
      && Enabled(s, step) && var r := Do(s, step);
      && r.context == s.context && r.stopper == s.stopper && r.listeners == map[]
      && (if id in s.erased then |r.open| < |s.open| else id in r.erased && r.open == s.open)
  {
    hide Counts, Taken, Claims, DistinctIds, Asked, Phases, Listened, Quiescence;
  }

  lemma SessionEnds(s: State, id: Id) returns (steps: seq<Step>)
    requires Inv(s) && AtWork(s) && s.context.Running? && s.listeners == map[] && id in s.open
    ensures Leads(s, steps) && |End(s, steps).open| < |s.open| && End(s, steps).listeners == map[]
    decreases id !in s.erased
  {
    hide Inv, AtWork, Leads, Enabled, Do;
    SessionStep(s, id);
    var step := if id in s.erased then ReleaseSession(id) else EraseSession(id);
    var r := Do(s, step);
    KeepsWorking(s, step);
    var rest := [];
    if id in s.erased {
      LeadsNowhere(r);
    } else {
      rest := SessionEnds(r, id);
    }
    LeadsOn(s, step, rest);
    steps := [step] + rest;
  }

  lemma SessionsEnd(s: State) returns (steps: seq<Step>)
    requires Inv(s) && AtWork(s) && s.context.Running? && s.listeners == map[]
    ensures Leads(s, steps) && End(s, steps).listeners == map[] && End(s, steps).open == {}
    decreases |s.open|
  {
    hide Inv, AtWork, Path, End, Shutting;
    if s.open == {} {
      LeadsNowhere(s);
      steps := [];
    } else {
      var id :| id in s.open;
      steps := SessionEnds(s, id);
      var rest := SessionsEnd(End(s, steps));
      LeadsBoth(s, steps, rest);
      steps := steps + rest;
    }
  }

  // With both gone nothing holds the thread up.

  lemma EmptyIsQuiet(s: State)
    requires Inv(s) && s.listeners == map[] && s.open == {}
    ensures Quiet(s)
  {
    hide Ids, DistinctIds, Asked, Phases, Listened;
  }

  lemma ThreadStepOn(s: State)
    requires Inv(s) && AtWork(s) && Quiet(s)
    ensures var step := Stopping(NextStop(s.stopper));
      && Enabled(s, step) && Inv(Do(s, step))
      && (if s.stopper.Publishing? then !Do(s, step).running && Quiet(Do(s, step)) && Do(s, step).stopper.NoStopper?
          else AtWork(Do(s, step)) && Quiet(Do(s, step)) && ToGo(Do(s, step).stopper) < ToGo(s.stopper))
  {
    hide Ids, DistinctIds, Asked, Listened, Counts, Collides, StartEnabled, MoveEnabled, DoStart, DoMove;
    var step := Stopping(NextStop(s.stopper));
    StepKeepsWork(s, step);
    StepKeeps(s, step);
  }

  lemma ThreadEnds(s: State) returns (steps: seq<Step>)
    requires Inv(s) && AtWork(s) && Quiet(s)
    ensures Path(s, steps) && Shutting(steps)
    ensures var e := End(s, steps); Inv(e) && !e.running && Quiet(e) && e.stopper.NoStopper?
    decreases ToGo(s.stopper)
  {
    hide Inv, AtWork, Quiet, Path, End, Enabled, Do;
    ThreadStepOn(s);
    var step := Stopping(NextStop(s.stopper));
    OneStep(s, step);
    steps := [step];
    if !s.stopper.Publishing? {
      var rest := ThreadEnds(Do(s, step));
      Joined(s, [step], rest);
      steps := [step] + rest;
    }
  }

  /** A stop can always be carried through: whatever the listeners, the sessions and the thread were about to do, steps of
      theirs alone lead to a server that is empty and says so. */
  lemma StopCompletes(s: State) returns (steps: seq<Step>)
    requires Inv(s) && AtWork(s)
    ensures Path(s, steps) && Shutting(steps)
    ensures var e := End(s, steps); Inv(e) && !e.running && Quiet(e) && e.stopper.NoStopper?
  {
    hide Inv, AtWork, Quiet, Path, End, Shutting;
    Working(s);
    steps := [];
    LeadsNowhere(s);
    if s.context.Running? {
      steps := ListenersLeave(s);
      var rest := SessionsEnd(End(s, steps));
      LeadsBoth(s, steps, rest);
      steps := steps + rest;
      EmptyIsQuiet(End(s, steps));
    }
    var last := ThreadEnds(End(s, steps));
    Joined(s, steps, last);
    ShuttingBoth(steps, last);
    steps := steps + last;
  }

  lemma ShuttingBoth(a: seq<Step>, b: seq<Step>)
    requires Shutting(a) && Shutting(b)
    ensures Shutting(a + b)
  {}

  // ---- a start brings the server up

  lemma StepsOn(s: State, steps: seq<Step>, step: Step)
    requires Path(s, steps) && Enabled(End(s, steps), step)
    ensures Path(s, steps + [step]) && End(s, steps + [step]) == Do(End(s, steps), step)
  {
    hide Enabled, Do;
    assert (steps + [step])[..|steps|] == steps;
  }

  lemma AtRest(s: State)
    requires Inv(s) && !s.running
    ensures s.start.NoStart? && s.active == 0 && s.open == {} && s.mapped == {}
  {
    hide Counts, Taken, Claims, DistinctIds, Asked, Listened;
  }

  /** From a server at rest the regions of a start, on any acceptors, end with one listener up for each. */
  lemma StartCompletes(s: State, acceptors: set<nat>) returns (steps: seq<Step>)
    requires Inv(s) && !s.running && acceptors != {}
    ensures Path(s, steps) && forall step :: step in steps ==> step.Starting?
    ensures var e := End(s, steps);
      && e.running && e.context.Running? && e.start.NoStart? && !e.stopInOperation && !e.startFailed
      && e.listeners == AllAtTop(acceptors) && e.runningCount == |acceptors| && e.active == 0 && e.open == {}
  {
    hide Inv, Path, End;
    AtRest(s);
    NoSteps(s);
    steps := [];
    StepsOn(s, steps, Starting(ClaimRunning));
    steps := steps + [Starting(ClaimRunning)];
    StepsOn(s, steps, Starting(LockStart));
    steps := steps + [Starting(LockStart)];
    StepsOn(s, steps, Starting(CreateContext));
    steps := steps + [Starting(CreateContext)];
    StepsOn(s, steps, Starting(Bind(acceptors)));
    steps := steps + [Starting(Bind(acceptors))];
    StepsOn(s, steps, Starting(RunContext));
    steps := steps + [Starting(RunContext)];
    StepsOn(s, steps, Starting(UnlockStart));
    steps := steps + [Starting(UnlockStart)];
  }

  /** A start that throws, wherever it does, leaves a server at rest, from which another start can come. */
  lemma FailedStartRests(s: State)
    requires Inv(s) && (s.start.Preparing? || s.start.Binding? || s.start.Announcing?)
    ensures StartEnabled(s, StartThrows)
    ensures var r := Do(s, Starting(StartThrows)); Inv(r) && !r.running && Quiet(r) && Enabled(r, Starting(ClaimRunning))
  {
    hide Counts, Taken, Claims, DistinctIds, Asked, Listened, DoMove, DoStopper, MoveEnabled, StopperEnabled;
    StepKeeps(s, Starting(StartThrows));
  }

  // ---- a connection is served

  lemma AcceptsOne(s: State, l: nat) returns (steps: seq<Step>)
    requires s.context.Running? && !s.stopInOperation && l in s.listeners && s.listeners[l].Top?
    ensures Path(s, steps) && End(s, steps) == Go(s, l, Creating)
    ensures forall step :: step in steps ==> step.Listening? && step.l == l
  {
    hide Path, End;
    NoSteps(s);
    steps := [];
    StepsOn(s, steps, Listening(l, LoadStop));
    steps := steps + [Listening(l, LoadStop)];
    StepsOn(s, steps, Listening(l, AcceptOk));
    steps := steps + [Listening(l, AcceptOk)];
    StepsOn(s, steps, Listening(l, LoadStopAgain));
    steps := steps + [Listening(l, LoadStopAgain)];
    assert End(s, steps).listeners == s.listeners[l := Creating];
  }

  lemma EntersOne(s: State, l: nat) returns (steps: seq<Step>)
    requires s.context.Running? && l in s.listeners && s.listeners[l].Creating?
    ensures Path(s, steps) && forall step :: step in steps ==> step.Listening? && step.l == l
    ensures var e, id := End(s, steps), s.lastId;
      && e.mapped == s.mapped + {id} && e.open == s.open + {id} && e.active == s.active + 1
      && e.lastId == id + 1 && e.listeners == s.listeners[l := Top] && e.asked == s.asked
  {
    hide Path, End;
    NoSteps(s);
    steps := [];
    StepsOn(s, steps, Listening(l, TakeId));
    steps := steps + [Listening(l, TakeId)];
    StepsOn(s, steps, Listening(l, CountSession));
    steps := steps + [Listening(l, CountSession)];
    StepsOn(s, steps, Listening(l, EnterSession));
    steps := steps + [Listening(l, EnterSession)];
  }

  /** From the top of its loop a listener of a server that is not stopping can take a connection in: it is counted and
      entered under an id no open session has, and the listener comes back to the top. */
  lemma ConnectionIsServed(s: State, l: nat) returns (steps: seq<Step>)
    requires Inv(s) && s.context.Running? && !s.stopInOperation && l in s.listeners && s.listeners[l].Top?
    ensures Path(s, steps) && forall step :: step in steps ==> step.Listening? && step.l == l
    ensures var e, id := End(s, steps), s.lastId;
      && e.mapped == s.mapped + {id} && e.open == s.open + {id} && id !in s.open && e.active == s.active + 1
      && e.lastId == id + 1 && e.listeners == s.listeners && e.asked == s.asked
  {
    hide Path, End, Inv;
    FreshId(s);
    var first := AcceptsOne(s, l);
    var rest := EntersOne(End(s, first), l);
    Joined(s, first, rest);
    steps := first + rest;
  }

  lemma FreshId(s: State)
    requires Inv(s)
    ensures s.lastId !in s.open
  {
    hide Counts, Claims, DistinctIds, Asked, Phases, Listened, Quiescence;
  }

  /** One that sees the stop takes no connection in, and a transient error brings a listener back to look. */
  lemma StopSendsHome(s: State, l: nat)
    requires s.context.Running? && l in s.listeners
    ensures s.stopInOperation && MoveEnabled(s, l, LoadStop) ==> DoMove(s, l, LoadStop).listeners[l].Leaving?
    ensures s.stopInOperation && MoveEnabled(s, l, LoadStopAgain) ==> DoMove(s, l, LoadStopAgain).listeners[l].Top?
    ensures s.listeners[l].Accepting? ==> MoveEnabled(s, l, AcceptRetry) && DoMove(s, l, AcceptRetry) == Go(s, l, Top)
  {}

  /** A connection that cannot be entered is told to stop and stays counted until it is released; its listener goes on. */
  lemma FailedEntryIsAsked(s: State, l: nat)
    requires Inv(s) && s.context.Running? && l in s.listeners && s.listeners[l].Counted?
    ensures MoveEnabled(s, l, EnterFails)
    ensures var r, id := DoMove(s, l, EnterFails), s.listeners[l].id;
      && id in r.asked && id !in r.mapped && id in r.open && r.active == s.active && r.listeners[l].Top?
      && Inv(r) && Enabled(r, EraseSession(id))
  {
    hide Counts, Taken, Phases, Listened, Quiescence;
    StepKeeps(s, Listening(l, EnterFails));
    NotCountedTwice(s, l, DoMove(s, l, EnterFails));
  }

  lemma NotCountedTwice(s: State, l: nat, r: State)
    requires Claims(s) && DistinctIds(s) && l in s.listeners && s.listeners[l].Counted?
    requires r.listeners == s.listeners[l := Top]
    ensures !BeingCounted(r, s.listeners[l].id) && InProgress(s, s.listeners[l].id)
  {}

  /** An accept error that cannot be retried stops the server. */
  lemma FatalAcceptStops(s: State, l: nat)
    requires Inv(s) && s.context.Running? && l in s.listeners && s.listeners[l].Accepting? && MutexFree(s)
    ensures MoveEnabled(s, l, AcceptFatal)
    ensures var r := DoMove(s, l, AcceptFatal);
      && MoveEnabled(r, l, ListenerStops)
      && AtWork(DoMove(r, l, ListenerStops)) && DoMove(r, l, ListenerStops).listeners[l].Leaving?
  {
    hide Counts, Taken, Claims, DistinctIds, Asked, Listened, Quiescence;
  }

  // ---- a context that does not run

  /** The thread waits neither for listeners that cannot leave nor for a context that was never made. */
  lemma NothingToWaitFor(s: State)
    requires !s.context.Running?
    ensures s.stopper.Looking? ==>
      var r := Do(s, Stopping(LookAtContext)); PastListeners(r.stopper) && r.runningCount == 0 && r.context == s.context
    ensures s.stopper.StoppingContext? ==>
      var r := Do(s, Stopping(StopContext));
      r.context == s.context && r.stopper == (if s.context.NoContext? then Publishing else AwaitingContext)
  {}

  /** A context that runs out of work has stopped by itself: the server is empty, reports itself running, and takes a stop
      as before. */
  lemma DrainStops(s: State)
    requires Inv(s) && s.context.Running? && s.listeners == map[] && s.open == {}
    ensures Enabled(s, Drain)
    ensures var r := Do(s, Drain);
      && r.context.Stopped? && Quiet(r) && r.running == s.running && r.stopper == s.stopper && r.stopInOperation
      && (CanStop(s) ==> CanStop(r) && AtWork(Do(r, RequestStop)))
  {
    hide Ids, DistinctIds, Asked;
  }
}
