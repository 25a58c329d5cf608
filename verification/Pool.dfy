/** Every interleaving of `run`, `stop_async`, the workers and the monitors of an I/O pool. */
module PoolProtocol {

  type Handler = nat

  /** Where the one call that holds the mutex stands between two atomic steps. */
  datatype Call =
    | Idle                     // the mutex is free
    // run
    | RunCheck                 // before loading m_cycle_active
    | RunLook                  // a cycle was active: before asking whether the context stopped
    | RunWait                  // waiting for the end of that cycle to be published
    | RunRestart | RunGuard | RunClaim
    | RunSpawn(started: nat)   // creating workers
    | RunMonitor               // creating the monitor
    | RunJoinOld               // the move-assignment joins the previous monitor
    // run, in the catch block
    | FailGuard | FailStop | FailJoin | FailPublish
    // stop_async, called by the stopped callback or by anyone else
    | StopCheck(byCallback: bool) | StopGuard(byCallback: bool) | StopContext(byCallback: bool)

  /** A monitor thread; `Over` once it has published the end of its cycle. */
  datatype Mon = Joining | InCallback | AskingStop | Publishing | Over

  datatype State = State(
    size: nat,                 // m_no_workers
    guarded: bool,             // m_guard_enabled
    call: Call,
    active: bool,              // m_cycle_active
    guard: bool,               // m_guard holds a work guard
    draining: bool,            // a worker found no work left and has yet to set the stopped flag
    stopped: bool,             // the context's stopped flag
    queue: set<Handler>,       // handlers posted and not yet taken
    posted: set<Handler>,
    busy: nat,                 // workers inside a handler
    live: nat,                 // workers inside context.run()
    exited: nat,               // workers in m_workers that have returned
    monitors: seq<Mon>,        // every monitor ever created, in order
    // history
    claimed: nat,              // cycles begun
    abandoned: nat,            // cycles given up by a failing run
    callbacks: nat)

  function Init(size: nat, guarded: bool): State {
    State(size, guarded, Idle, false, false, false, false, {}, {}, 0, 0, 0, [], 0, 0, 0)
  }

  /** The context and its workers. */
  datatype WorkStep = Post(h: Handler) | Take(h: Handler) | FinishHandler | RunDry | MarkStopped | WorkerExit

  /** The call that holds the mutex: `run`, its catch block, or `stop_async`. */
  datatype CallStep =
    | BeginRun | LoadActive | LookStopped | Wake | Restart | EmplaceGuard | Claim
    | SpawnWorker | SpawnMonitor | JoinOld | SpawnFails | JoinStarted | Unclaim
    | DropGuard | StopIt | BeginStop | LoadForStop

  datatype MonStep = JoinWorkers | AskStop | LockFromCallback | LeaveCallback | Publish

  datatype Step = Working(w: WorkStep) | Calling(c: CallStep) | Monitoring(i: nat, m: MonStep)

  function One(b: bool): nat { if b then 1 else 0 }

  predicate MonAt(s: State, i: nat, m: Mon) { i < |s.monitors| && s.monitors[i] == m }

  predicate WorkEnabled(s: State, w: WorkStep) {
    match w
    case Post(h) => h !in s.posted
    case Take(h) => h in s.queue && !s.stopped && s.busy + One(s.draining) < s.live
    case FinishHandler => s.busy > 0
    case RunDry => !s.stopped && s.live > 0 && s.queue == {} && s.busy == 0 && !s.guard
    case MarkStopped => s.draining
    case WorkerExit => s.stopped && s.busy + One(s.draining) < s.live
  }

  predicate CallEnabled(s: State, c: CallStep) {
    match c
    case BeginRun => s.call.Idle?
    case LoadActive => s.call.RunCheck?
    case LookStopped => s.call.RunLook?
    case Wake => s.call.RunWait? && !s.active
    case Restart => s.call.RunRestart?
    case EmplaceGuard => s.call.RunGuard?
    case Claim => s.call.RunClaim?
    case SpawnWorker => s.call.RunSpawn? && s.call.started < s.size
    case SpawnMonitor => s.call.RunMonitor?
    case JoinOld => s.call.RunJoinOld? && (|s.monitors| >= 2 ==> s.monitors[|s.monitors| - 2].Over?)
    case SpawnFails => s.call.RunSpawn? || s.call.RunMonitor?
    case JoinStarted => s.call.FailJoin? && s.live == 0
    case Unclaim => s.call.FailPublish?
    case DropGuard => s.call.FailGuard? || s.call.StopGuard?
    case StopIt => s.call.FailStop? || s.call.StopContext?
    case BeginStop => s.call.Idle?
    case LoadForStop => s.call.StopCheck?
  }

  predicate MonEnabled(s: State, i: nat, m: MonStep) {
    match m
    case JoinWorkers => MonAt(s, i, Joining) && s.live == 0
    case AskStop => MonAt(s, i, InCallback) && !CallbackStops(s)
    case LockFromCallback => MonAt(s, i, AskingStop) && s.call.Idle?
    case LeaveCallback => MonAt(s, i, InCallback) && !CallbackStops(s)
    case Publish => MonAt(s, i, Publishing)
  }

  predicate Enabled(s: State, step: Step) {
    match step
    case Working(w) => WorkEnabled(s, w)
    case Calling(c) => CallEnabled(s, c)
    case Monitoring(i, m) => MonEnabled(s, i, m)
  }

  /** The callback is inside its own `stop_async`. */
  predicate CallbackStops(s: State) {
    (s.call.StopCheck? || s.call.StopGuard? || s.call.StopContext?) && s.call.byCallback
  }

  function AfterSpawn(s: State, started: nat): Call { if started == s.size then RunMonitor else RunSpawn(started) }

  function SetMon(s: State, i: nat, m: Mon): State
    requires i < |s.monitors|
  {
    s.(monitors := s.monitors[i := m])
  }

  function DoWork(s: State, w: WorkStep): State
    requires WorkEnabled(s, w)
  {
    match w
    case Post(h) => s.(queue := s.queue + {h}, posted := s.posted + {h})
    case Take(h) => s.(queue := s.queue - {h}, busy := s.busy + 1)
    case FinishHandler => s.(busy := s.busy - 1)
    case RunDry => s.(draining := true)
    case MarkStopped => s.(draining := false, stopped := true)
    case WorkerExit => s.(live := s.live - 1, exited := s.exited + 1)
  }

  function DoCall(s: State, c: CallStep): State
    requires CallEnabled(s, c)
  {
    match c
    case BeginRun => s.(call := RunCheck)
    case LoadActive => s.(call := if s.active then RunLook else RunRestart)
    case LookStopped => s.(call := if s.stopped then RunWait else Idle)
    case Wake => s.(call := RunCheck)
    case Restart => s.(call := RunGuard, stopped := false)
    case EmplaceGuard => s.(call := RunClaim, guard := s.guarded || s.guard)
    case Claim => s.(call := AfterSpawn(s, 0), active := true, claimed := s.claimed + 1)
    case SpawnWorker => s.(call := AfterSpawn(s, s.call.started + 1), live := s.live + 1)
    case SpawnMonitor => s.(call := RunJoinOld, monitors := s.monitors + [Joining])
    case JoinOld => s.(call := Idle)
    case SpawnFails => s.(call := FailGuard)
    case JoinStarted => s.(call := FailPublish, exited := 0)
    case Unclaim => s.(call := Idle, active := false, abandoned := s.abandoned + 1)
    case DropGuard => s.(call := if s.call.FailGuard? then FailStop else StopContext(s.call.byCallback), guard := false)
    case StopIt => s.(call := if s.call.FailStop? then FailJoin else Idle, stopped := true)
    case BeginStop => s.(call := StopCheck(false))
    case LoadForStop => s.(call := if s.active then StopGuard(s.call.byCallback) else Idle)
  }

  function DoMon(s: State, i: nat, m: MonStep): State
    requires MonEnabled(s, i, m)
  {
    match m
    case JoinWorkers => SetMon(s, i, InCallback).(exited := 0, callbacks := s.callbacks + 1)
    case AskStop => SetMon(s, i, AskingStop)
    case LockFromCallback => SetMon(s, i, InCallback).(call := StopCheck(true))
    case LeaveCallback => SetMon(s, i, Publishing)
    case Publish => SetMon(s, i, Over).(active := false)
  }

  function Do(s: State, step: Step): State
    requires Enabled(s, step)
  {
    match step
    case Working(w) => DoWork(s, w)
    case Calling(c) => DoCall(s, c)
    case Monitoring(i, m) => DoMon(s, i, m)
  }

  // ---- the invariant

  predicate Waiting(c: Call) { c.RunCheck? || c.RunLook? || c.RunWait? }

  predicate Preparing(c: Call) { c.RunRestart? || c.RunGuard? || c.RunClaim? }

  /** A starting or failing `run` that owns the cycle and the worker vector. */
  predicate OwnsCycle(c: Call) {
    c.RunSpawn? || c.RunMonitor? || c.FailGuard? || c.FailStop? || c.FailJoin? || c.FailPublish?
  }

  /** The latest monitor; an earlier one is never anything but over. */
  function Latest(s: State): Mon { if s.monitors == [] then Over else s.monitors[|s.monitors| - 1] }

  predicate OthersOver(s: State) { forall i :: 0 <= i < |s.monitors| - 1 ==> s.monitors[i].Over? }

  predicate OneCycle(s: State) {
    var c, m := s.call, Latest(s);
    && OthersOver(s)
    && (s.active <==> !m.Over? || OwnsCycle(c))
    && (!m.Over? ==> !OwnsCycle(c) && !Preparing(c))
    && (c.RunJoinOld? ==> s.monitors != [])
    && (CallbackStops(s) ==> m.InCallback?)
  }

  predicate Counts(s: State) {
    var c, m := s.call, Latest(s);
    && s.claimed == |s.monitors| + s.abandoned + One(OwnsCycle(c))
    && s.callbacks + One(m.Joining?) == |s.monitors|
  }

  predicate Workers(s: State) {
    var c, m := s.call, Latest(s);
    && s.size > 0 && s.busy + One(s.draining) <= s.live && s.queue <= s.posted
    && (!s.active ==> s.live == 0 && s.exited == 0)
    && (c.RunSpawn? ==> s.live + s.exited == c.started < s.size)
    && (c.RunMonitor? || m.Joining? ==> s.live + s.exited == s.size)
    && (m.InCallback? || m.AskingStop? || m.Publishing? ==> s.live == 0 && s.exited == 0 && s.stopped)
    && (c.FailJoin? || c.FailPublish? ==> s.stopped)
    && (c.FailPublish? ==> s.live == 0 && s.exited == 0)
    && (s.exited > 0 ==> s.stopped)
    && ((c.RunLook? || c.RunWait? || c.RunJoinOld?) && !s.active ==> s.stopped)
    && (c.RunWait? ==> s.stopped)
  }

  predicate Inv(s: State) { OneCycle(s) && Counts(s) && Workers(s) }

  lemma InitHolds(size: nat, guarded: bool)
    requires size > 0
    ensures Inv(Init(size, guarded))
  {}

  lemma SameMonitors(s: State, t: State)
    requires t.monitors == s.monitors
    ensures OthersOver(t) == OthersOver(s) && Latest(t) == Latest(s)
  {}

  /** The workers touch neither the mutex nor the monitors. */
  lemma WorkKeeps(s: State, w: WorkStep)
    requires Inv(s) && WorkEnabled(s, w)
    ensures Inv(DoWork(s, w))
  {
    hide OthersOver, Latest;
    SameMonitors(s, DoWork(s, w));
  }

  /** The steps of `run` before its catch block. */
  predicate ByRun(c: CallStep) {
    c.BeginRun? || c.LoadActive? || c.LookStopped? || c.Wake? || c.Restart? || c.EmplaceGuard? || c.Claim? ||
    c.SpawnWorker? || c.SpawnMonitor? || c.JoinOld?
  }

  lemma RunKeepsOneCycle(s: State, c: CallStep)
    requires Inv(s) && CallEnabled(s, c) && ByRun(c) && !c.SpawnMonitor?
    ensures OneCycle(DoCall(s, c))
  {
    hide Counts, OthersOver, Latest;
    SameMonitors(s, DoCall(s, c));
  }

  lemma StopKeepsOneCycle(s: State, c: CallStep)
    requires Inv(s) && CallEnabled(s, c) && !ByRun(c)
    ensures OneCycle(DoCall(s, c))
  {
    hide Counts, OthersOver, Latest;
    SameMonitors(s, DoCall(s, c));
  }

  /** Only claiming a cycle and giving it up change who owns one. */
  lemma CallOwns(s: State, c: CallStep)
    requires CallEnabled(s, c) && !c.SpawnMonitor?
    ensures var t := DoCall(s, c);
      && t.monitors == s.monitors && t.callbacks == s.callbacks
      && t.claimed == (if c.Claim? then s.claimed + 1 else s.claimed)
      && t.abandoned == (if c.Unclaim? then s.abandoned + 1 else s.abandoned)
  {
    hide DoCall, CallEnabled;
    if ByRun(c) {
      RunOwns(s, c);
    } else {
      StopOwns(s, c);
    }
  }

  lemma RunOwns(s: State, c: CallStep)
    requires CallEnabled(s, c) && ByRun(c) && !c.SpawnMonitor?
    ensures var t := DoCall(s, c);
      && t.monitors == s.monitors && t.callbacks == s.callbacks && t.abandoned == s.abandoned
      && t.claimed == if c.Claim? then s.claimed + 1 else s.claimed
  {
    hide AfterSpawn;
  }

  lemma StopOwns(s: State, c: CallStep)
    requires CallEnabled(s, c) && !ByRun(c)
    ensures var t := DoCall(s, c);
      && t.monitors == s.monitors && t.callbacks == s.callbacks && t.claimed == s.claimed
      && t.abandoned == if c.Unclaim? then s.abandoned + 1 else s.abandoned
  {
    hide AfterSpawn;
  }

  lemma CallOwner(s: State, c: CallStep)
    requires CallEnabled(s, c) && !c.SpawnMonitor?
    ensures c.Claim? ==> !OwnsCycle(s.call) && OwnsCycle(DoCall(s, c).call)
    ensures c.Unclaim? ==> OwnsCycle(s.call) && !OwnsCycle(DoCall(s, c).call)
    ensures !c.Claim? && !c.Unclaim? ==> OwnsCycle(DoCall(s, c).call) == OwnsCycle(s.call)
  {
    if c.Claim? || c.Unclaim? {
    } else if ByRun(c) {
      RunOwner(s, c);
    } else {
      StopOwner(s, c);
    }
  }

  lemma RunOwner(s: State, c: CallStep)
    requires CallEnabled(s, c) && ByRun(c) && !c.SpawnMonitor? && !c.Claim?
    ensures OwnsCycle(DoCall(s, c).call) == OwnsCycle(s.call)
  {}

  lemma StopOwner(s: State, c: CallStep)
    requires CallEnabled(s, c) && !ByRun(c) && !c.Unclaim?
    ensures OwnsCycle(DoCall(s, c).call) == OwnsCycle(s.call)
  {}

  lemma CallKeepsCounts(s: State, c: CallStep)
    requires Inv(s) && CallEnabled(s, c) && !c.SpawnMonitor?
    ensures Counts(DoCall(s, c))
  {
    hide OneCycle, Workers, OthersOver, Latest, DoCall, CallEnabled, OwnsCycle;
    CallOwns(s, c);
    CallOwner(s, c);
    SameMonitors(s, DoCall(s, c));
  }

  lemma RunKeepsWorkers(s: State, c: CallStep)
    requires Inv(s) && CallEnabled(s, c) && ByRun(c) && !c.SpawnMonitor?
    ensures Workers(DoCall(s, c))
  {
    hide Counts, OthersOver, Latest;
    SameMonitors(s, DoCall(s, c));
  }

  lemma StopKeepsWorkers(s: State, c: CallStep)
    requires Inv(s) && CallEnabled(s, c) && !ByRun(c)
    ensures Workers(DoCall(s, c))
  {
    hide Counts, OthersOver, Latest;
    SameMonitors(s, DoCall(s, c));
  }

  lemma SpawnKeeps(s: State)
    requires Inv(s) && CallEnabled(s, SpawnMonitor)
    ensures Inv(DoCall(s, SpawnMonitor))
  {}

  lemma MonKeepsOneCycle(s: State, i: nat, m: MonStep)
    requires Inv(s) && MonEnabled(s, i, m)
    ensures OneCycle(DoMon(s, i, m))
  {
    hide Counts, Workers;
  }

  lemma MonKeepsCounts(s: State, i: nat, m: MonStep)
    requires Inv(s) && MonEnabled(s, i, m)
    ensures Counts(DoMon(s, i, m))
  {
    hide Workers;
  }

  lemma MonKeepsWorkers(s: State, i: nat, m: MonStep)
    requires Inv(s) && MonEnabled(s, i, m)
    ensures Workers(DoMon(s, i, m))
  {
    hide Counts;
  }

  lemma StepKeeps(s: State, step: Step)
    requires Inv(s) && Enabled(s, step)
    ensures Inv(Do(s, step))
  {
    hide OneCycle, Counts, Workers, DoWork, DoCall, DoMon, WorkEnabled, CallEnabled, MonEnabled;
    match step
    case Working(w) => WorkKeeps(s, w);
    case Calling(c) =>
      if c.SpawnMonitor? {
        SpawnKeeps(s);
      } else if ByRun(c) {
        RunKeepsOneCycle(s, c);
        CallKeepsCounts(s, c);
        RunKeepsWorkers(s, c);
      } else {
        StopKeepsOneCycle(s, c);
        CallKeepsCounts(s, c);
        StopKeepsWorkers(s, c);
      }
    case Monitoring(i, m) =>
      MonKeepsOneCycle(s, i, m);
      MonKeepsCounts(s, i, m);
      MonKeepsWorkers(s, i, m);
  }

  // ---- runs

  predicate Path(s: State, steps: seq<Step>)
    decreases |steps|
  {
    steps == [] || (Enabled(s, steps[0]) && Path(Do(s, steps[0]), steps[1..]))
  }

  function End(s: State, steps: seq<Step>): State
    requires Path(s, steps)
    decreases |steps|
  {
    if steps == [] then s else End(Do(s, steps[0]), steps[1..])
  }

  lemma {:induction false} RunKeeps(s: State, steps: seq<Step>)
    requires Inv(s) && Path(s, steps)
    ensures Inv(End(s, steps))
    decreases |steps|
  {
    hide Inv, Do, Enabled;
    if steps != [] {
      StepKeeps(s, steps[0]);
      RunKeeps(Do(s, steps[0]), steps[1..]);
    }
  }

  /** Across all interleavings: at most one cycle is in flight, `run` and a monitor never own
      the worker vector together, every cycle claimed is over, abandoned or in flight, and
      the stopped callback has run once for every cycle whose workers have been joined. */
  lemma CyclesAreDisjoint(size: nat, guarded: bool, steps: seq<Step>)
    requires size > 0 && Path(Init(size, guarded), steps)
    ensures var s := End(Init(size, guarded), steps);
      && (forall i, j | 0 <= i < |s.monitors| && 0 <= j < |s.monitors| && !s.monitors[i].Over? && !s.monitors[j].Over?
            :: i == j)
      && (forall i :: 0 <= i < |s.monitors| && !s.monitors[i].Over? ==> s.active && !OwnsCycle(s.call))
      && s.claimed == |s.monitors| + s.abandoned + One(OwnsCycle(s.call))
      && s.callbacks == |s.monitors| - One(Latest(s).Joining?)
      && (!s.active ==> s.live == 0 && s.exited == 0 && s.busy == 0)
  {
    hide Path, End;
    InitHolds(size, guarded);
    RunKeeps(Init(size, guarded), steps);
  }

  /** The callback of a cycle starts only after each of its workers has returned. */
  lemma CallbackFollowsWorkers(s: State, i: nat)
    requires Inv(s) && Enabled(s, Monitoring(i, JoinWorkers))
    ensures s.exited == s.size && s.live == 0 && s.busy == 0 && s.stopped
    ensures i == |s.monitors| - 1
  {}

  // ---- no stranded handler

  predicate InRun(c: Call) {
    Waiting(c) || Preparing(c) || c.RunSpawn? || c.RunMonitor? || c.RunJoinOld?
  }

  /** A full set of workers is on a context that has not stopped and is not about to. */
  predicate Serving(s: State) { s.active && !s.stopped && !s.draining && s.live == s.size && !OwnsCycle(s.call) }

  /** A worker has seen the last of the work go, and the stopped flag does not show it yet. */
  predicate Wavering(s: State) { s.draining && !s.stopped }

  /** What is queued now `run` will not leave without handing it to live workers. */
  predicate Kept(s: State) {
    && InRun(s.call)
    && !Wavering(s)
    && (s.call.RunGuard? || s.call.RunClaim? || s.call.RunSpawn? || s.call.RunMonitor? || s.call.RunJoinOld? ==> !s.stopped)
  }

  predicate Settled(s: State, h: Handler) { h !in s.queue || Kept(s) || Serving(s) }

  predicate Intervenes(step: Step) { step == Calling(StopIt) || step == Calling(SpawnFails) }

  lemma WorkKeepsSettled(s: State, w: WorkStep, h: Handler)
    requires Inv(s) && WorkEnabled(s, w) && Settled(s, h) && h in s.posted
    ensures Settled(DoWork(s, w), h) && h in DoWork(s, w).posted
  {
    hide Counts, OneCycle;
  }

  lemma CallKeepsSettled(s: State, c: CallStep, h: Handler)
    requires Inv(s) && CallEnabled(s, c) && Settled(s, h) && h in s.posted && !c.StopIt? && !c.SpawnFails?
    ensures Settled(DoCall(s, c), h) && h in DoCall(s, c).posted
  {
    hide Counts;
  }

  lemma MonKeepsSettled(s: State, i: nat, m: MonStep, h: Handler)
    requires Inv(s) && MonEnabled(s, i, m) && Settled(s, h) && h in s.posted
    ensures Settled(DoMon(s, i, m), h) && h in DoMon(s, i, m).posted
  {
    hide Counts;
  }

  lemma StepKeepsSettled(s: State, step: Step, h: Handler)
    requires Inv(s) && Enabled(s, step) && !Intervenes(step)
    requires Settled(s, h) && h in s.posted
    ensures Settled(Do(s, step), h) && h in Do(s, step).posted
  {
    hide Inv, Settled, DoWork, DoCall, DoMon, WorkEnabled, CallEnabled, MonEnabled;
    match step
    case Working(w) => WorkKeepsSettled(s, w, h);
    case Calling(c) => CallKeepsSettled(s, c, h);
    case Monitoring(i, m) => MonKeepsSettled(s, i, m, h);
  }

  lemma {:induction false} StaysSettled(s: State, steps: seq<Step>, h: Handler)
    requires Inv(s) && Path(s, steps) && Settled(s, h) && h in s.posted
    requires forall i :: 0 <= i < |steps| ==> !Intervenes(steps[i])
    ensures Inv(End(s, steps)) && Settled(End(s, steps), h)
    decreases |steps|
  {
    hide Inv, Settled, Do, Enabled, Intervenes;
    if steps == [] {
    } else {
      StepKeeps(s, steps[0]);
      StepKeepsSettled(s, steps[0], h);
      StaysSettled(Do(s, steps[0]), steps[1..], h);
    }
  }

  /** `run` looks at a wavering context, takes it for a live one and returns; then the context stops. */
  lemma WaveringStrands(s: State, h: Handler) returns (steps: seq<Step>)
    requires Inv(s) && Enabled(s, Calling(BeginRun)) && h in s.queue && Wavering(s)
    ensures var r := Do(s, Calling(BeginRun));
      && Path(r, steps) && (forall i :: 0 <= i < |steps| ==> !Intervenes(steps[i]))
      && h in End(r, steps).queue && End(r, steps).call.Idle? && End(r, steps).stopped
  {
    hide Path, End, OneCycle, Counts;
    var r := Do(s, Calling(BeginRun));
    var looked := Do(Do(r, Calling(LoadActive)), Calling(LookStopped));
    steps := [Calling(LoadActive), Calling(LookStopped), Working(MarkStopped)];
    assert [Working(MarkStopped)] + [] == [Working(MarkStopped)];
    assert [Calling(LookStopped)] + [Working(MarkStopped)] == [Calling(LookStopped), Working(MarkStopped)];
    assert [Calling(LoadActive)] + [Calling(LookStopped), Working(MarkStopped)] == steps;
    NoSteps(Do(looked, Working(MarkStopped)));
    Cons(looked, Working(MarkStopped), []);
    Cons(Do(r, Calling(LoadActive)), Calling(LookStopped), [Working(MarkStopped)]);
    Cons(r, Calling(LoadActive), [Calling(LookStopped), Working(MarkStopped)]);
  }

  /** A handler queued when `run` is called is never stranded, in any run in which nobody stops the context and no thread
      creation fails - it is taken, or `run` is still at work, or a full set of workers is live on a context that has not
      stopped - exactly when the call does not fall between a worker's finding no work left and its setting the flag. */
  lemma NotStrandedIff(s: State, h: Handler)
    requires Inv(s) && Enabled(s, Calling(BeginRun)) && h in s.queue
    ensures var r := Do(s, Calling(BeginRun));
      !Wavering(s) <==>
        forall steps | Path(r, steps) && (forall i :: 0 <= i < |steps| ==> !Intervenes(steps[i]))
          && h in End(r, steps).queue && End(r, steps).call.Idle?
          :: Serving(End(r, steps)) && End(r, steps).live > 0
  {
    hide Path, End, OneCycle, Counts;
    var r := Do(s, Calling(BeginRun));
    StepKeeps(s, Calling(BeginRun));
    if Wavering(s) {
      var steps := WaveringStrands(s, h);
    } else {
      forall steps | Path(r, steps) && (forall i :: 0 <= i < |steps| ==> !Intervenes(steps[i]))
        && h in End(r, steps).queue && End(r, steps).call.Idle?
        ensures Serving(End(r, steps)) && End(r, steps).live > 0
      {
        StaysSettled(r, steps, h);
      }
    }
  }

  // ---- stop_async from the stopped callback

  /** The callback waits for the mutex that a `run` holds while it waits for the callback. */
  predicate Stuck(s: State) { Latest(s).AskingStop? && Waiting(s.call) }

  lemma StepStaysStuck(s: State, step: Step)
    requires Inv(s) && Enabled(s, step) && Stuck(s)
    ensures Stuck(Do(s, step))
  {
    hide Counts;
  }

  /** Nothing any thread does, in any run from there, resolves it. */
  lemma {:induction false} StuckForever(s: State, steps: seq<Step>)
    requires Inv(s) && Path(s, steps) && Stuck(s)
    ensures Stuck(End(s, steps))
    decreases |steps|
  {
    hide Inv, Stuck, Do, Enabled;
    if steps == [] {
    } else {
      StepKeeps(s, steps[0]);
      StepStaysStuck(s, steps[0]);
      StuckForever(Do(s, steps[0]), steps[1..]);
    }
  }

  lemma Cons(s: State, step: Step, steps: seq<Step>)
    requires Enabled(s, step) && Path(Do(s, step), steps)
    ensures Path(s, [step] + steps) && End(s, [step] + steps) == End(Do(s, step), steps)
  {
    hide Enabled, Do;
    assert ([step] + steps)[1..] == steps;
  }

  lemma NoSteps(s: State)
    ensures Path(s, []) && End(s, []) == s
  {}

  lemma {:induction false} Join(s: State, a: seq<Step>, b: seq<Step>)
    requires Path(s, a) && Path(End(s, a), b)
    ensures Path(s, a + b) && End(s, a + b) == End(End(s, a), b)
    decreases |a|
  {
    hide Do, Enabled;
    if a == [] {
      assert a + b == b;
    } else {
      assert (a + b)[1..] == a[1..] + b;
      Join(Do(s, a[0]), a[1..], b);
    }
  }

  lemma Append(s: State, steps: seq<Step>, step: Step)
    requires Path(s, steps) && Enabled(End(s, steps), step)
    ensures Path(s, steps + [step]) && End(s, steps + [step]) == Do(End(s, steps), step)
  {
    hide Do, Enabled;
    var e := End(s, steps);
    assert Path(Do(e, step), []);
    assert [step][1..] == [];
    Join(s, steps, [step]);
  }

  predicate NoRun(steps: seq<Step>) { forall k :: 0 <= k < |steps| ==> steps[k] != Calling(BeginRun) }

  lemma NeverWaits(s: State, step: Step)
    requires Enabled(s, step) && step != Calling(BeginRun) && !Waiting(s.call)
    ensures !Waiting(Do(s, step).call)
  {
    hide DoWork, DoCall, DoMon, WorkEnabled, CallEnabled, MonEnabled;
    match step
    case Working(w) => WorkNeverWaits(s, w);
    case Calling(c) => CallNeverWaits(s, c);
    case Monitoring(i, m) => MonNeverWaits(s, i, m);
  }

  lemma WorkNeverWaits(s: State, w: WorkStep)
    requires WorkEnabled(s, w)
    ensures DoWork(s, w).call == s.call
  {}

  lemma CallNeverWaits(s: State, c: CallStep)
    requires CallEnabled(s, c) && c != BeginRun && !Waiting(s.call)
    ensures !Waiting(DoCall(s, c).call)
  {}

  lemma MonNeverWaits(s: State, i: nat, m: MonStep)
    requires MonEnabled(s, i, m) && !Waiting(s.call)
    ensures !Waiting(DoMon(s, i, m).call)
  {}

  lemma {:induction false} RunNeverWaits(s: State, steps: seq<Step>)
    requires Path(s, steps) && NoRun(steps) && !Waiting(s.call)
    ensures !Waiting(End(s, steps).call)
    decreases |steps|
  {
    hide Waiting, Do, Enabled;
    if steps == [] {
    } else {
      NeverWaits(s, steps[0]);
      RunNeverWaits(Do(s, steps[0]), steps[1..]);
    }
  }

  /** With what a holder other than a waiting `run` goes on to let the mutex go. */
  function NextRelease(c: Call): CallStep {
    match c
    case RunJoinOld => JoinOld
    case StopGuard(_) => DropGuard
    case StopContext(_) => StopIt
    case _ => LoadForStop
  }

  function ToRelease(c: Call): nat {
    match c
    case StopCheck(_) => 3
    case StopGuard(_) => 2
    case Idle => 0
    case _ => 1
  }

  /** The callback is about to call `stop_async`, or waits in it for the mutex, and no `run` waits with it. */
  predicate Asking(s: State) { Latest(s).AskingStop? && !Waiting(s.call) }

  lemma ReleaseStep(s: State)
    requires Inv(s) && Asking(s) && !s.call.Idle?
    ensures var step := Calling(NextRelease(s.call));
      && Enabled(s, step) && Asking(Do(s, step)) && ToRelease(Do(s, step).call) < ToRelease(s.call)
  {
    hide Counts, Workers;
  }

  /** `steps` lead from `s` to a free mutex, the callback still asking. */
  lemma Releases(s: State) returns (steps: seq<Step>)
    requires Inv(s) && Asking(s)
    ensures Path(s, steps) && NoRun(steps)
    ensures var e := End(s, steps); Inv(e) && Asking(e) && e.call.Idle?
  {
    hide Path, End, Inv, Asking, Enabled, Do;
    NoSteps(s);
    steps := [];
    while !End(s, steps).call.Idle?
      invariant Path(s, steps) && NoRun(steps) && Inv(End(s, steps)) && Asking(End(s, steps))
      decreases ToRelease(End(s, steps).call)
    {
      var e := End(s, steps);
      ReleaseStep(e);
      StepKeeps(e, Calling(NextRelease(e.call)));
      Append(s, steps, Calling(NextRelease(e.call)));
      steps := steps + [Calling(NextRelease(e.call))];
    }
  }

  /** `stop_async` has returned to the callback. */
  predicate Returned(s: State) { Latest(s).InCallback? && s.call.Idle? }

  lemma CallbackSteps(s: State)
    requires Inv(s) && Asking(s) && s.call.Idle?
    ensures s.monitors != [] && Enabled(s, Monitoring(|s.monitors| - 1, LockFromCallback))
    ensures var r := Do(s, Monitoring(|s.monitors| - 1, LockFromCallback));
      Latest(r).InCallback? && r.call == StopCheck(true) && r.active
  {
    hide Counts, Workers;
  }

  lemma StopSteps(r: State)
    requires r.call == StopCheck(true) && r.active
    ensures Enabled(r, Calling(LoadForStop))
    ensures Do(r, Calling(LoadForStop)) == r.(call := StopGuard(true))
    ensures Enabled(r.(call := StopGuard(true)), Calling(DropGuard))
    ensures Do(r.(call := StopGuard(true)), Calling(DropGuard)) == r.(call := StopContext(true), guard := false)
    ensures Enabled(r.(call := StopContext(true), guard := false), Calling(StopIt))
    ensures Do(r.(call := StopContext(true), guard := false), Calling(StopIt)) ==
      r.(call := Idle, guard := false, stopped := true)
  {
    hide WorkEnabled, MonEnabled, DoWork, DoMon;
  }

  /** Unless a `run` is waiting, the holder's and the callback's own steps bring the call back. */
  lemma CallbackStopReturns(s: State) returns (steps: seq<Step>)
    requires Inv(s) && Asking(s)
    ensures Path(s, steps) && NoRun(steps) && Returned(End(s, steps))
  {
    hide Path, End, Inv, Asking, Enabled, Do;
    steps := Releases(s);
    var e := End(s, steps);
    CallbackSteps(e);
    var lock := Monitoring(|e.monitors| - 1, LockFromCallback);
    StopSteps(Do(e, lock));
    Append(s, steps, lock);
    Append(s, steps + [lock], Calling(LoadForStop));
    Append(s, steps + [lock] + [Calling(LoadForStop)], Calling(DropGuard));
    Append(s, steps + [lock] + [Calling(LoadForStop)] + [Calling(DropGuard)], Calling(StopIt));
    steps := steps + [lock] + [Calling(LoadForStop)] + [Calling(DropGuard)] + [Calling(StopIt)];
  }

  /** `stop_async` called from the stopped callback cannot block for ever, whatever run follows in which no other `run`
      begins, exactly when no `run` is waiting with the mutex; and exactly then it can return at all. */
  lemma CallbackStopReturnsIff(s: State, i: nat)
    requires Inv(s) && MonAt(s, i, AskingStop)
    ensures !Waiting(s.call) <==> forall steps | Path(s, steps) && NoRun(steps) :: !Stuck(End(s, steps))
    ensures !Waiting(s.call) <==> exists steps :: Path(s, steps) && NoRun(steps) && Returned(End(s, steps))
  {
    hide Path, End, Waiting, Counts, Workers, NoRun;
    assert Latest(s).AskingStop?;
    if Waiting(s.call) {
      NoSteps(s);
      assert NoRun([]) by { NoRunInNone(); }
      forall steps | Path(s, steps) ensures !Returned(End(s, steps)) {
        StuckForever(s, steps);
      }
    } else {
      forall steps | Path(s, steps) && NoRun(steps) ensures !Stuck(End(s, steps)) {
        RunNeverWaits(s, steps);
      }
      var steps := CallbackStopReturns(s);
    }
  }

  lemma NoRunInNone()
    ensures NoRun([])
  {}

  /** But a `run` that begins before the callback has the mutex always brings the two together: from every state in which
      the callback is asking, some run ends in the mutual wait. */
  lemma CallbackStopExposed(s: State, i: nat) returns (steps: seq<Step>)
    requires Inv(s) && MonAt(s, i, AskingStop)
    ensures Path(s, steps) && Stuck(End(s, steps))
  {
    hide Path, End, Counts, Workers;
    if Waiting(s.call) {
      NoSteps(s);
      steps := [];
    } else {
      steps := Releases(s);
      Append(s, steps, Calling(BeginRun));
      steps := steps + [Calling(BeginRun)];
    }
  }

  // ---- a pool with a guard

  /** The guard is there whenever workers are, until a stop drops it. */
  predicate HoldsGuard(s: State) {
    var dropped := s.call.StopContext? || s.call.FailStop?;
    && s.guarded
    && (s.call.RunClaim? || s.call.RunSpawn? || s.call.RunMonitor? || s.call.FailGuard? ==> s.guard)
    && (s.live > 0 && !s.stopped ==> s.guard || dropped)
    && (Wavering(s) ==> dropped)
  }

  lemma StepHoldsGuard(s: State, step: Step)
    requires Inv(s) && Enabled(s, step) && HoldsGuard(s)
    ensures HoldsGuard(Do(s, step))
  {
    hide Inv, HoldsGuard, DoWork, DoCall, DoMon, WorkEnabled, CallEnabled, MonEnabled;
    match step
    case Working(w) => WorkHoldsGuard(s, w);
    case Calling(c) => CallHoldsGuard(s, c);
    case Monitoring(i, m) => MonHoldsGuard(s, i, m);
  }

  lemma WorkHoldsGuard(s: State, w: WorkStep)
    requires Inv(s) && WorkEnabled(s, w) && HoldsGuard(s)
    ensures HoldsGuard(DoWork(s, w))
  {
    hide Counts, OneCycle;
  }

  lemma CallHoldsGuard(s: State, c: CallStep)
    requires Inv(s) && CallEnabled(s, c) && HoldsGuard(s)
    ensures HoldsGuard(DoCall(s, c))
  {
    hide Counts, OthersOver;
  }

  lemma MonHoldsGuard(s: State, i: nat, m: MonStep)
    requires Inv(s) && MonEnabled(s, i, m) && HoldsGuard(s)
    ensures HoldsGuard(DoMon(s, i, m))
  {
    hide Counts, OthersOver;
  }

  lemma {:induction false} RunHoldsGuard(s: State, steps: seq<Step>)
    requires Inv(s) && HoldsGuard(s) && Path(s, steps)
    ensures Inv(End(s, steps)) && HoldsGuard(End(s, steps))
    decreases |steps|
  {
    hide Inv, HoldsGuard, Do, Enabled;
    if steps == [] {
    } else {
      StepKeeps(s, steps[0]);
      StepHoldsGuard(s, steps[0]);
      RunHoldsGuard(Do(s, steps[0]), steps[1..]);
    }
  }

  /** A pool with a work guard strands no handler: no call of `run` finds it between running dry and stopping. */
  lemma GuardedIsSafe(size: nat, steps: seq<Step>, h: Handler, more: seq<Step>)
    requires size > 0 && Path(Init(size, true), steps)
    requires var s := End(Init(size, true), steps);
      Enabled(s, Calling(BeginRun)) && h in s.queue && Path(Do(s, Calling(BeginRun)), more)
    requires forall i :: 0 <= i < |more| ==> !Intervenes(more[i])
    ensures !Wavering(End(Init(size, true), steps))
    ensures var e := End(Do(End(Init(size, true), steps), Calling(BeginRun)), more);
      h in e.queue && e.call.Idle? ==> Serving(e) && e.live > 0
  {
    hide Path, End, Inv, Intervenes, Serving;
    InitHolds(size, true);
    RunHoldsGuard(Init(size, true), steps);
    NotStrandedIff(End(Init(size, true), steps), h);
  }

  // ---- runs that reach these states

  lemma Extend(guarded: bool, steps: seq<Step>, step: Step) returns (longer: seq<Step>)
    requires Path(Init(1, guarded), steps) && Enabled(End(Init(1, guarded), steps), step)
    ensures Path(Init(1, guarded), longer)
    ensures End(Init(1, guarded), longer) == Do(End(Init(1, guarded), steps), step)
  {
    longer := steps + [step];
    Append(Init(1, guarded), steps, step);
  }

  lemma RunClaims(guarded: bool) returns (steps: seq<Step>)
    ensures Path(Init(1, guarded), steps)
    ensures End(Init(1, guarded), steps) ==
      Init(1, guarded).(call := RunSpawn(0), active := true, guard := guarded, claimed := 1)
  {
    hide Path, End, DoWork, DoMon, WorkEnabled, MonEnabled;
    NoSteps(Init(1, guarded));
    steps := Extend(guarded, [], Calling(BeginRun));
    steps := Extend(guarded, steps, Calling(LoadActive));
    steps := Extend(guarded, steps, Calling(Restart));
    steps := Extend(guarded, steps, Calling(EmplaceGuard));
    steps := Extend(guarded, steps, Calling(Claim));
  }

  function OneWorker(guarded: bool): State {
    State(1, guarded, Idle, true, guarded, false, false, {}, {}, 0, 1, 0, [Joining], 1, 0, 0)
  }

  /** A first cycle of one worker, up to the return of `run`. */
  lemma OneWorkerRuns(guarded: bool) returns (steps: seq<Step>)
    ensures Path(Init(1, guarded), steps) && End(Init(1, guarded), steps) == OneWorker(guarded)
  {
    hide Path, End, DoWork, DoMon, WorkEnabled, MonEnabled;
    steps := RunClaims(guarded);
    steps := Extend(guarded, steps, Calling(SpawnWorker));
    steps := Extend(guarded, steps, Calling(SpawnMonitor));
    steps := Extend(guarded, steps, Calling(JoinOld));
  }

  /** The gap exists: an unguarded pool has run dry, and a handler is posted before the flag is set. */
  lemma CanWaver(h: Handler) returns (steps: seq<Step>)
    ensures Path(Init(1, false), steps)
    ensures var s := End(Init(1, false), steps);
      Wavering(s) && h in s.queue && Enabled(s, Calling(BeginRun))
  {
    hide Path, End, DoCall, DoMon, MonEnabled;
    steps := OneWorkerRuns(false);
    steps := Extend(false, steps, Working(RunDry));
    steps := Extend(false, steps, Working(Post(h)));
  }

  lemma ContextStops() returns (steps: seq<Step>)
    ensures Path(Init(1, true), steps)
    ensures End(Init(1, true), steps) == OneWorker(true).(guard := false, stopped := true)
  {
    hide Path, End, DoWork, DoMon, WorkEnabled, MonEnabled;
    steps := OneWorkerRuns(true);
    steps := Extend(true, steps, Calling(BeginStop));
    steps := Extend(true, steps, Calling(LoadForStop));
    steps := Extend(true, steps, Calling(DropGuard));
    steps := Extend(true, steps, Calling(StopIt));
  }

  lemma WorkerLeaves() returns (steps: seq<Step>)
    ensures Path(Init(1, true), steps)
    ensures End(Init(1, true), steps) == OneWorker(true).(guard := false, stopped := true, live := 0, exited := 1)
  {
    hide Path, End, DoCall, CallEnabled, DoMon, MonEnabled;
    steps := ContextStops();
    steps := Extend(true, steps, Working(WorkerExit));
  }

  lemma CallbackAsks() returns (steps: seq<Step>)
    ensures Path(Init(1, true), steps)
    ensures var s := End(Init(1, true), steps); s.monitors == [AskingStop] && s.call.Idle?
  {
    hide Path, End, DoCall, CallEnabled, DoWork, WorkEnabled;
    steps := WorkerLeaves();
    assert [Joining][0 := InCallback] == [InCallback] && [InCallback][0 := AskingStop] == [AskingStop];
    steps := Extend(true, steps, Monitoring(0, JoinWorkers));
    steps := Extend(true, steps, Monitoring(0, AskStop));
  }

  /** The two can indeed meet: the pool is stopped, its callback is about to call
      `stop_async`, and another thread calls `run`. */
  lemma CallbackStopCanBlock() returns (steps: seq<Step>)
    ensures Path(Init(1, true), steps) && Stuck(End(Init(1, true), steps))
  {
    hide Path, End, DoWork, DoMon, WorkEnabled, MonEnabled;
    steps := CallbackAsks();
    steps := Extend(true, steps, Calling(BeginRun));
  }
}
