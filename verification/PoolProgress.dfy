/** What a pool gets done: a run brings its workers up, a stop takes them down, and a queued handler is taken. */
module PoolProgress {
  import opened PoolProtocol

  // ---- handlers

  /** A served pool takes any handler queued, once a worker is free. */
  lemma HandlerIsTaken(s: State, h: Handler) returns (steps: seq<Step>)
    requires Inv(s) && Serving(s) && h in s.queue
    ensures Path(s, steps)
    ensures var e := End(s, steps); e.queue == s.queue - {h} && e.busy > 0 && Serving(e) && e.posted == s.posted
  {
    hide Path, End, OneCycle, Counts;
    NoSteps(s);
    steps := [];
    if s.busy == s.live {
      Append(s, steps, Working(FinishHandler));
      steps := steps + [Working(FinishHandler)];
    }
    Append(s, steps, Working(Take(h)));
    steps := steps + [Working(Take(h))];
  }

  predicate Takes(h: Handler, step: Step) { step == Working(Take(h)) }

  lemma StepTakes(s: State, h: Handler, step: Step)
    requires Inv(s) && Enabled(s, step)
    ensures var r := Do(s, step);
      One(Takes(h, step)) + One(h in r.queue) - One(h in r.posted) == One(h in s.queue) - One(h in s.posted)
  {
    hide OneCycle, Counts, CallEnabled, DoCall, MonEnabled, DoMon;
    match step
    case Working(_) =>
    case Calling(c) => CallLeavesHandlers(s, c);
    case Monitoring(i, m) => MonLeavesHandlers(s, i, m);
  }

  lemma CallLeavesHandlers(s: State, c: CallStep)
    requires CallEnabled(s, c)
    ensures DoCall(s, c).queue == s.queue && DoCall(s, c).posted == s.posted
  {
    hide DoCall, CallEnabled;
    if ByRun(c) {
      RunLeavesHandlers(s, c);
    } else {
      StopLeavesHandlers(s, c);
    }
  }

  lemma RunLeavesHandlers(s: State, c: CallStep)
    requires CallEnabled(s, c) && ByRun(c)
    ensures DoCall(s, c).queue == s.queue && DoCall(s, c).posted == s.posted
  {
    hide AfterSpawn;
  }

  lemma StopLeavesHandlers(s: State, c: CallStep)
    requires CallEnabled(s, c) && !ByRun(c)
    ensures DoCall(s, c).queue == s.queue && DoCall(s, c).posted == s.posted
  {}

  lemma MonLeavesHandlers(s: State, i: nat, m: MonStep)
    requires MonEnabled(s, i, m)
    ensures DoMon(s, i, m).queue == s.queue && DoMon(s, i, m).posted == s.posted
  {}

  /** Over any run a handler that was posted has been taken once, or is still queued, and never both. */
  lemma {:induction false} HandlersConserved(s: State, steps: seq<Step>, h: Handler)
    requires Inv(s) && Path(s, steps)
    ensures var e := End(s, steps);
      Times(steps, step => Takes(h, step)) + One(h in e.queue) - One(h in e.posted) == One(h in s.queue) - One(h in s.posted)
    decreases |steps|
  {
    hide Inv, Enabled, Do, Takes;
    if steps != [] {
      StepKeeps(s, steps[0]);
      StepTakes(s, h, steps[0]);
      HandlersConserved(Do(s, steps[0]), steps[1..], h);
    }
  }

  /** Once the context has stopped no handler is taken until another run restarts it. */
  lemma {:induction false} StoppedTakesNone(s: State, steps: seq<Step>)
    requires s.stopped && Path(s, steps) && Calling(Restart) !in steps
    ensures End(s, steps).stopped && s.queue <= End(s, steps).queue
    decreases |steps|
  {
    hide Enabled, Do;
    if steps != [] {
      StaysStopped(s, steps[0]);
      StoppedTakesNone(Do(s, steps[0]), steps[1..]);
    }
  }

  lemma StaysStopped(s: State, step: Step)
    requires s.stopped && Enabled(s, step) && step != Calling(Restart)
    ensures Do(s, step).stopped && s.queue <= Do(s, step).queue
  {
    hide CallEnabled, DoCall, MonEnabled, DoMon;
    match step
    case Working(_) =>
    case Calling(c) => CallLeavesHandlers(s, c); CallStaysStopped(s, c);
    case Monitoring(i, m) => MonLeavesHandlers(s, i, m); MonStaysStopped(s, i, m);
  }

  lemma CallStaysStopped(s: State, c: CallStep)
    requires s.stopped && CallEnabled(s, c) && !c.Restart?
    ensures DoCall(s, c).stopped
  {}

  lemma MonStaysStopped(s: State, i: nat, m: MonStep)
    requires s.stopped && MonEnabled(s, i, m)
    ensures DoMon(s, i, m).stopped
  {}

  // ---- a stop

  /** `stop_async` on a pool that runs drops the guard and stops its context, and on one that does not does nothing. */
  lemma StopStops(s: State) returns (steps: seq<Step>)
    requires s.call.Idle?
    ensures Path(s, steps) && End(s, steps) == (if s.active then s.(guard := false, stopped := true) else s)
    ensures forall step :: step in steps ==> step.Calling?
  {
    hide Path, End, WorkEnabled, MonEnabled, DoWork, DoMon;
    NoSteps(s);
    Append(s, [], Calling(BeginStop));
    Append(s, [] + [Calling(BeginStop)], Calling(LoadForStop));
    steps := [] + [Calling(BeginStop)] + [Calling(LoadForStop)];
    if s.active {
      Append(s, steps, Calling(DropGuard));
      steps := steps + [Calling(DropGuard)];
      Append(s, steps, Calling(StopIt));
      steps := steps + [Calling(StopIt)];
    }
  }

  // ---- the end of a cycle

  /** The workers of a stopped context that have not returned, and what they have to do first. */
  function Unreturned(s: State): nat { s.busy + One(s.draining) + s.live }

  /** What a worker of a stopped context does next. */
  function NextExit(s: State): WorkStep
  {
    if s.busy > 0 then FinishHandler else if s.draining then MarkStopped else WorkerExit
  }

  lemma ExitStep(s: State)
    requires Inv(s) && s.stopped && s.live > 0
    ensures WorkEnabled(s, NextExit(s))
    ensures var r := DoWork(s, NextExit(s));
      && Unreturned(r) < Unreturned(s) && r.stopped && r.live + r.exited == s.live + s.exited
      && r == s.(busy := r.busy, draining := r.draining, live := r.live, exited := r.exited)
  {
    hide OneCycle, Counts;
  }

  /** Once the context has stopped every worker can return, and only workers move. */
  lemma WorkersReturn(s: State) returns (steps: seq<Step>)
    requires Inv(s) && s.stopped
    ensures Path(s, steps) && forall step :: step in steps ==> step.Working?
    ensures var e := End(s, steps);
      Inv(e) && e == s.(busy := 0, draining := false, live := 0, exited := s.live + s.exited)
    decreases Unreturned(s)
  {
    hide Inv, Path, End, Enabled, Do, Unreturned, NextExit;
    NoSteps(s);
    if s.live == 0 {
      NobodyBusy(s);
      steps := [];
    } else {
      ExitStep(s);
      var step := Working(NextExit(s));
      WorkStepIs(s, NextExit(s));
      StepKeeps(s, step);
      var rest := WorkersReturn(Do(s, step));
      Cons(s, step, rest);
      steps := [step] + rest;
    }
  }

  lemma WorkStepIs(s: State, w: WorkStep)
    requires WorkEnabled(s, w)
    ensures Enabled(s, Working(w)) && Do(s, Working(w)) == DoWork(s, w)
  {}

  lemma NobodyBusy(s: State)
    requires Inv(s) && s.live == 0
    ensures s.busy == 0 && !s.draining
  {
    hide OneCycle, Counts;
  }

  /** A cycle whose context has stopped, whose callback is not in a call of its own. */
  predicate Ending(s: State) {
    s.active && s.stopped && (s.call.Idle? || Waiting(s.call)) && !Latest(s).AskingStop? && !Latest(s).Over?
  }

  /** At rest: nothing of the last cycle is left. */
  predicate AtRest(s: State) { !s.active && s.live == 0 && s.exited == 0 && s.busy == 0 && !s.draining }

  function Last(s: State): nat { if s.monitors == [] then 0 else |s.monitors| - 1 }

  function NextMon(m: Mon): MonStep {
    match m
    case Joining => JoinWorkers
    case InCallback => LeaveCallback
    case _ => Publish
  }

  function MonsLeft(m: Mon): nat {
    match m
    case Joining => 2
    case InCallback => 1
    case _ => 0
  }

  lemma MonitorSteps(s: State)
    requires Inv(s) && Ending(s) && (Latest(s).Joining? ==> s.live == 0)
    ensures var m := NextMon(Latest(s));
      && s.monitors != [] && MonEnabled(s, Last(s), m) && var r := DoMon(s, Last(s), m);
      && r.callbacks == s.callbacks + One(Latest(s).Joining?)
      && (if Latest(s).Publishing? then !r.active else Ending(r) && MonsLeft(Latest(r)) < MonsLeft(Latest(s)))
  {
    hide Counts, Workers;
  }

  /** What the last steps of a cycle leave alone. */
  predicate SameOtherwise(s: State, r: State) {
    && r.call == s.call && r.queue == s.queue && r.posted == s.posted && r.guard == s.guard && r.guarded == s.guarded
    && r.size == s.size && |r.monitors| == |s.monitors| && r.claimed == s.claimed && r.abandoned == s.abandoned
    && r.stopped == s.stopped
  }

  lemma MonitorFrame(s: State, m: MonStep)
    requires s.monitors != [] && MonEnabled(s, Last(s), m) && !m.LockFromCallback?
    ensures SameOtherwise(s, DoMon(s, Last(s), m))
  {}

  /** The monitor of a stopped cycle can run its course: the workers return, the callback is called if it was still due,
      and the end is published; none of it touches the call that waits, or takes a handler. */
  lemma CycleEnds(s: State) returns (steps: seq<Step>)
    requires Inv(s) && Ending(s)
    ensures Path(s, steps) && forall step :: step in steps ==> !step.Calling?
    ensures var e := End(s, steps); Inv(e) && AtRest(e) && SameOtherwise(s, e) && e.callbacks == |e.monitors|
    decreases MonsLeft(Latest(s)), s.live
  {
    hide Inv, Path, End, Enabled, Do, Latest, Ending, AtRest, MonEnabled, DoMon, MonsLeft, NextMon;
    if Latest(s).Joining? && s.live > 0 {
      steps := WorkersOfCycle(s);
      var rest := CycleEnds(End(s, steps));
      Join(s, steps, rest);
      steps := steps + rest;
    } else {
      MonitorSteps(s);
      var m := NextMon(Latest(s));
      var step := Monitoring(Last(s), m);
      assert Enabled(s, step) && Do(s, step) == DoMon(s, Last(s), m) by { MonStepIs(s, Last(s), m); }
      StepKeeps(s, step);
      assert !m.LockFromCallback? by { NeverLocks(Latest(s)); }
      MonitorFrame(s, m);
      var r := Do(s, step);
      var rest := [];
      NoSteps(r);
      if Latest(s).Publishing? {
        Published(r);
      } else {
        rest := CycleEnds(r);
      }
      Cons(s, step, rest);
      steps := [step] + rest;
    }
  }

  lemma NeverLocks(m: Mon)
    ensures !NextMon(m).LockFromCallback?
  {}

  lemma MonStepIs(s: State, i: nat, m: MonStep)
    requires MonEnabled(s, i, m)
    ensures Enabled(s, Monitoring(i, m)) && Do(s, Monitoring(i, m)) == DoMon(s, i, m)
  {}

  lemma WorkersOfCycle(s: State) returns (steps: seq<Step>)
    requires Inv(s) && Ending(s)
    ensures Path(s, steps) && forall step :: step in steps ==> step.Working?
    ensures var e := End(s, steps);
      Inv(e) && Ending(e) && e.live == 0 && Latest(e) == Latest(s) && SameOtherwise(s, e)
  {
    hide Inv, Path, End;
    steps := WorkersReturn(s);
  }

  lemma Published(s: State)
    requires Inv(s) && !s.active
    ensures AtRest(s) && s.callbacks == |s.monitors|
  {}

  // ---- a run

  /** What a run that starts a cycle leaves behind: a full set of workers on a fresh context, and their monitor. */
  function Started(s: State): State {
    s.(call := Idle, active := true, guard := s.guarded || s.guard, stopped := false, live := s.size,
       monitors := s.monitors + [Joining], claimed := s.claimed + 1)
  }

  lemma SpawnStep(s: State)
    requires Inv(s) && s.call.RunSpawn?
    ensures CallEnabled(s, SpawnWorker)
    ensures DoCall(s, SpawnWorker) == s.(call := AfterSpawn(s, s.call.started + 1), live := s.live + 1)
    ensures s.call.started < s.size
  {
    hide OneCycle, Counts;
  }

  lemma CallStepIs(s: State, c: CallStep)
    requires CallEnabled(s, c)
    ensures Enabled(s, Calling(c)) && Do(s, Calling(c)) == DoCall(s, c)
  {}

  lemma SpawnsAll(s: State) returns (steps: seq<Step>)
    requires Inv(s) && s.call.RunSpawn?
    ensures Path(s, steps) && forall step :: step in steps ==> step.Calling?
    ensures End(s, steps) == s.(call := RunMonitor, live := s.live + s.size - s.call.started)
    decreases s.size - s.call.started
  {
    hide Inv, Path, End, Enabled, Do, CallEnabled, DoCall;
    SpawnStep(s);
    CallStepIs(s, SpawnWorker);
    StepKeeps(s, Calling(SpawnWorker));
    var r := Do(s, Calling(SpawnWorker));
    var rest := [];
    NoSteps(r);
    if r.call.RunSpawn? {
      rest := SpawnsAll(r);
    }
    Cons(s, Calling(SpawnWorker), rest);
    steps := [Calling(SpawnWorker)] + rest;
  }

  lemma ClaimsCycle(s: State) returns (steps: seq<Step>)
    requires Inv(s) && s.call.RunCheck? && !s.active
    ensures Path(s, steps) && forall step :: step in steps ==> step.Calling?
    ensures var e := End(s, steps);
      Inv(e) && e == s.(call := RunSpawn(0), active := true, guard := s.guarded || s.guard, stopped := false,
                        claimed := s.claimed + 1)
    ensures s.live == 0
  {
    hide Path, End, OneCycle, Counts, WorkEnabled, MonEnabled, DoWork, DoMon;
    NoSteps(s);
    Append(s, [], Calling(LoadActive));
    steps := [] + [Calling(LoadActive)];
    Append(s, steps, Calling(Restart));
    steps := steps + [Calling(Restart)];
    Append(s, steps, Calling(EmplaceGuard));
    steps := steps + [Calling(EmplaceGuard)];
    Append(s, steps, Calling(Claim));
    steps := steps + [Calling(Claim)];
    RunKeeps(s, steps);
  }

  lemma MonitorsCycle(s: State) returns (steps: seq<Step>)
    requires Inv(s) && s.call.RunMonitor?
    ensures Path(s, steps) && forall step :: step in steps ==> step.Calling?
    ensures End(s, steps) == s.(call := Idle, monitors := s.monitors + [Joining])
  {
    hide Path, End, Counts, WorkEnabled, MonEnabled, DoWork, DoMon;
    NoSteps(s);
    Append(s, [], Calling(SpawnMonitor));
    steps := [] + [Calling(SpawnMonitor)];
    Append(s, steps, Calling(JoinOld));
    steps := steps + [Calling(JoinOld)];
  }

  lemma RunStarts(s: State) returns (steps: seq<Step>)
    requires Inv(s) && s.call.RunCheck? && !s.active
    ensures Path(s, steps) && End(s, steps) == Started(s)
    ensures forall step :: step in steps ==> step.Calling?
  {
    hide Inv, Path, End;
    var claims := ClaimsCycle(s);
    var s1 := End(s, claims);
    var spawns := SpawnsAll(s1);
    Join(s, claims, spawns);
    RunKeeps(s1, spawns);
    var monitors := MonitorsCycle(End(s1, spawns));
    Join(s, claims + spawns, monitors);
    steps := claims + spawns + monitors;
  }

  /** `run`, called while no callback is in a `stop_async` of its own. On a pool that serves it comes back and changes
      nothing; otherwise it waits out the cycle that ends, whose callback is called, and comes back with a full set of
      workers on a fresh context. Either way what is queued stays queued. */
  lemma RunCompletes(s: State) returns (steps: seq<Step>)
    requires Inv(s) && Enabled(s, Calling(BeginRun)) && !Latest(s).AskingStop?
    ensures var r := Do(s, Calling(BeginRun));
      && Path(r, steps) && var e := End(r, steps);
      if s.active && !s.stopped then e == s
      else
        && e.call.Idle? && e.active && !e.stopped && e.live == e.size == s.size && e.guard == (s.guarded || s.guard)
        && e.queue == s.queue && e.posted == s.posted && e.claimed == s.claimed + 1
        && |e.monitors| == |s.monitors| + 1 && e.callbacks == |s.monitors|
  {
    hide Inv, Path, End, Latest, WorkEnabled, MonEnabled, DoWork, DoMon;
    var r := Do(s, Calling(BeginRun));
    StepKeeps(s, Calling(BeginRun));
    NoSteps(r);
    if !s.active {
      Published(s);
      steps := RunStarts(r);
    } else {
      Append(r, [], Calling(LoadActive));
      steps := [] + [Calling(LoadActive)];
      Append(r, steps, Calling(LookStopped));
      steps := steps + [Calling(LookStopped)];
      if s.stopped {
        RunKeeps(r, steps);
        var w := End(r, steps);
        WaitsForEnd(s, w);
        var ends := CycleEnds(w);
        Join(r, steps, ends);
        steps := steps + ends;
        Append(r, steps, Calling(Wake));
        steps := steps + [Calling(Wake)];
        RunKeeps(r, steps);
        var starts := RunStarts(End(r, steps));
        Join(r, steps, starts);
        steps := steps + starts;
      }
    }
  }

  lemma WaitsForEnd(s: State, w: State)
    requires Inv(s) && s.call.Idle? && s.active && s.stopped && !Latest(s).AskingStop?
    requires w == s.(call := RunWait)
    ensures Ending(w)
  {
    hide Counts, Workers;
  }

  /** A stop takes the pool to rest: the context stops, every worker returns and the callback is called. */
  lemma StopCompletes(s: State) returns (steps: seq<Step>)
    requires Inv(s) && s.call.Idle? && s.active && !Latest(s).AskingStop?
    ensures Path(s, steps)
    ensures var e := End(s, steps);
      && AtRest(e) && e.call.Idle? && e.stopped && !e.guard && e.queue == s.queue && e.callbacks == |s.monitors|
      && |e.monitors| == |s.monitors|
  {
    hide Inv, Path, End, Latest;
    steps := StopStops(s);
    RunKeeps(s, steps);
    var w := End(s, steps);
    StopsToEnd(s, w);
    var ends := CycleEnds(w);
    Join(s, steps, ends);
    steps := steps + ends;
  }

  lemma StopsToEnd(s: State, w: State)
    requires Inv(s) && s.call.Idle? && s.active && !Latest(s).AskingStop?
    requires w == s.(guard := false, stopped := true)
    ensures Ending(w)
  {
    hide Counts, Workers;
  }

  lemma FailureStops(s: State) returns (steps: seq<Step>)
    requires s.call.FailGuard?
    ensures Path(s, steps) && End(s, steps) == s.(call := FailJoin, guard := false, stopped := true)
  {
    hide Path, End, WorkEnabled, MonEnabled, DoWork, DoMon;
    NoSteps(s);
    Append(s, [], Calling(DropGuard));
    steps := [] + [Calling(DropGuard)];
    Append(s, steps, Calling(StopIt));
    steps := steps + [Calling(StopIt)];
  }

  lemma FailurePublishes(s: State) returns (steps: seq<Step>)
    requires s.call.FailJoin? && s.live == 0
    ensures Path(s, steps)
    ensures End(s, steps) == s.(call := Idle, exited := 0, active := false, abandoned := s.abandoned + 1)
  {
    hide Path, End, WorkEnabled, MonEnabled, DoWork, DoMon;
    NoSteps(s);
    Append(s, [], Calling(JoinStarted));
    steps := [] + [Calling(JoinStarted)];
    Append(s, steps, Calling(Unclaim));
    steps := steps + [Calling(Unclaim)];
  }

  /** A thread that cannot be created takes the run back: what was started is stopped and joined, no callback is called,
      and another run can follow. */
  lemma FailedRunRests(s: State) returns (steps: seq<Step>)
    requires Inv(s) && (s.call.RunSpawn? || s.call.RunMonitor?)
    ensures CallEnabled(s, SpawnFails)
    ensures var r := DoCall(s, SpawnFails);
      && Path(r, steps) && var e := End(r, steps);
      && Inv(e) && AtRest(e) && e.call.Idle? && e.stopped && !e.guard && e.queue == s.queue
      && e.monitors == s.monitors && e.callbacks == s.callbacks && e.abandoned == s.abandoned + 1
  {
    hide Inv, Path, End, WorkEnabled, MonEnabled, DoWork, DoMon;
    CallStepIs(s, SpawnFails);
    StepKeeps(s, Calling(SpawnFails));
    var r := DoCall(s, SpawnFails);
    steps := FailureStops(r);
    RunKeeps(r, steps);
    var exits := WorkersReturn(End(r, steps));
    Join(r, steps, exits);
    steps := steps + exits;
    var last := FailurePublishes(End(r, steps));
    Join(r, steps, last);
    steps := steps + last;
    RunKeeps(r, steps);
  }

  // ---- what the history counts

  function Times(steps: seq<Step>, p: Step -> bool): nat {
    if steps == [] then 0 else One(p(steps[0])) + Times(steps[1..], p)
  }

  predicate Claims(step: Step) { step == Calling(Claim) }

  predicate GivesUp(step: Step) { step == Calling(Unclaim) }

  predicate CallsBack(step: Step) { step.Monitoring? && step.m.JoinWorkers? }

  lemma StepCounts(s: State, step: Step)
    requires Enabled(s, step)
    ensures var r := Do(s, step);
      && r.claimed == s.claimed + One(Claims(step)) && r.abandoned == s.abandoned + One(GivesUp(step))
      && r.callbacks == s.callbacks + One(CallsBack(step))
  {
    hide WorkEnabled, DoWork, MonEnabled, DoMon, CallEnabled, DoCall;
    match step
    case Working(w) => WorkCounts(s, w);
    case Monitoring(i, m) => MonCounts(s, i, m);
    case Calling(c) =>
      if c.SpawnMonitor? {
        SpawnCounts(s);
      } else {
        CallOwns(s, c);
      }
  }

  lemma WorkCounts(s: State, w: WorkStep)
    requires WorkEnabled(s, w)
    ensures var r := DoWork(s, w);
      r.claimed == s.claimed && r.abandoned == s.abandoned && r.callbacks == s.callbacks
  {}

  lemma MonCounts(s: State, i: nat, m: MonStep)
    requires MonEnabled(s, i, m)
    ensures var r := DoMon(s, i, m);
      r.claimed == s.claimed && r.abandoned == s.abandoned && r.callbacks == s.callbacks + One(m.JoinWorkers?)
  {}

  lemma SpawnCounts(s: State)
    requires CallEnabled(s, SpawnMonitor)
    ensures var r := DoCall(s, SpawnMonitor);
      r.claimed == s.claimed && r.abandoned == s.abandoned && r.callbacks == s.callbacks
  {}

  /** The history counts what it says, in every run: the cycles claimed, those given up, and the callbacks called. */
  lemma {:induction false} HistoryCounts(s: State, steps: seq<Step>)
    requires Path(s, steps)
    ensures var e := End(s, steps);
      && e.claimed == s.claimed + Times(steps, Claims) && e.abandoned == s.abandoned + Times(steps, GivesUp)
      && e.callbacks == s.callbacks + Times(steps, CallsBack)
    decreases |steps|
  {
    hide Enabled, Do, Claims, GivesUp, CallsBack;
    if steps != [] {
      StepCounts(s, steps[0]);
      HistoryCounts(Do(s, steps[0]), steps[1..]);
    }
  }
}
