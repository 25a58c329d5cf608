/** Every interleaving of a state machine's worker thread with the callers of `set_state`,
    `request_stop`, `request_stop_after_iterations`, `notify` and `start`. */
module WorkerProtocol {
  import opened StateTrace

  const MAX: nat := 0xFFFF_FFFF_FFFF_FFFF   // MAX_ITERATION_COUNT

  /** The iteration `request_stop_after_iterations(n)` aims for, having loaded `done`. */
  function StopTarget(done: nat, n: nat): nat
    requires done <= MAX
  {
    if n >= MAX - done then MAX - 1 else done + n
  }

  /** Where the worker thread stands between two atomic steps. */
  datatype Pc =
    | Over                                         // no thread, or one that has returned
    | OnStart
    | CheckStop
    | LoadCurrent
    | LoadRequested(cur: StateId)
    | FirstEntry(cur: StateId, req: StateId)       // before the test of just_started
    | Compare(cur: StateId, req: StateId)
    | StoreCurrent(cur: StateId, req: StateId)     // exit callbacks done
    | EnterNew(cur: StateId, req: StateId)         // m_current_state stored
    | TickCallbacks(cur: StateId)
    | CheckTarget
    | Waiting                                      // in try_acquire_for
    | Draining
    | SetStopped
    | ExitLast                                     // before the exit callbacks of worker_on_stop
    | StopCallback

  /** `start`, up to the creation of the thread. */
  datatype Starter = NoStart | Resetting(init: StateId) | Replacing(init: StateId) | Launching(init: StateId)

  datatype State = State(
    created: bool,             // m_worker is set
    current: StateId,          // m_current_state
    requested: StateId,        // m_requested_state
    justStarted: bool,
    running: bool,             // m_state of the worker
    stopRequested: bool,
    sem: nat,
    done: nat,                 // m_iterations_done
    target: nat,               // m_stop_at_iteration
    starter: Starter,
    pc: Pc,
    // calls between their store and their notify
    settling: nat,             // set_state
    stopping: nat,             // request_stop
    planned: nat,              // request_stop_after_iterations
    plans: multiset<nat>,      // targets computed and not yet stored
    // history
    initial: StateId,          // of the latest run
    trace: seq<Block>,         // of the latest run
    stored: nat,               // iterations done when the target was last stored
    seen: StateId)             // the requested state as last loaded

  function Init(): State {
    State(false, 0, 0, false, false, false, 0, 0, MAX, NoStart, Over, 0, 0, 0, multiset{}, 0, [], 0, 0)
  }

  datatype StartStep = BeginStart(init: StateId) | StoreInitial | ReplaceWorker | Launch

  datatype WorkStep = Work | Timeout | StopDraining

  datatype CallStep =
    | SetState(state: StateId) | NotifyState | AskStop | NotifyStop
    | Plan(n: nat) | StorePlan(plan: nat) | NotifyPlan | Notify

  datatype Step = Starting(a: StartStep) | Working(w: WorkStep) | Calling(c: CallStep)

  /** No call runs beside `start`: nothing protects the pointer to the worker. */
  predicate Callable(s: State) { s.created && s.starter.NoStart? }

  predicate NoCalls(s: State) { s.settling == 0 && s.stopping == 0 && s.planned == 0 && s.plans == multiset{} }

  predicate StartEnabled(s: State, a: StartStep) {
    match a
    case BeginStart(_) => !s.running && s.starter.NoStart? && NoCalls(s)
    case StoreInitial => s.starter.Resetting?
    case ReplaceWorker => s.starter.Replacing? && s.pc.Over?
    case Launch => s.starter.Launching?
  }

  predicate WorkEnabled(s: State, w: WorkStep) {
    match w
    case Work => !s.pc.Over? && (s.pc.Waiting? || s.pc.Draining? ==> s.sem > 0)
    case Timeout => s.pc.Waiting?
    case StopDraining => s.pc.Draining? && s.sem == 0
  }

  predicate CallEnabled(s: State, c: CallStep) {
    match c
    case SetState(_) => Callable(s)
    case NotifyState => s.settling > 0
    case AskStop => Callable(s)
    case NotifyStop => s.stopping > 0
    case Plan(n) => Callable(s) && 0 < n <= MAX && s.done <= MAX
    case StorePlan(plan) => plan in s.plans
    case NotifyPlan => s.planned > 0
    case Notify => Callable(s)
  }

  predicate Enabled(s: State, step: Step) {
    match step
    case Starting(a) => StartEnabled(s, a)
    case Working(w) => WorkEnabled(s, w)
    case Calling(c) => CallEnabled(s, c)
  }

  /** The callbacks the worker's next step runs. */
  function Reported(s: State): seq<Block> {
    match s.pc
    case OnStart => [Start]
    case FirstEntry(cur, _) => if s.justStarted then [Entry(cur, cur)] else []
    case Compare(cur, req) => if cur != req then [Exit(cur, req)] else []
    case EnterNew(cur, req) => [Entry(req, cur)]
    case TickCallbacks(cur) => [Tick(cur)]
    case ExitLast => [Exit(s.current, s.current)]
    case StopCallback => [Stop]
    case _ => []
  }

  predicate InTick(pc: Pc) {
    pc.LoadCurrent? || pc.LoadRequested? || pc.FirstEntry? || pc.Compare? || pc.StoreCurrent? || pc.EnterNew? ||
    pc.TickCallbacks?
  }

  /** The steps of `tick_action`. */
  function AdvanceTick(s: State): State
    requires InTick(s.pc)
  {
    match s.pc
    case LoadCurrent => s.(pc := LoadRequested(s.current))
    case LoadRequested(cur) => s.(pc := FirstEntry(cur, s.requested), seen := s.requested)
    case FirstEntry(cur, req) => s.(pc := Compare(cur, req), justStarted := false)
    case Compare(cur, req) => s.(pc := if cur != req then StoreCurrent(cur, req) else TickCallbacks(cur))
    case StoreCurrent(cur, req) => s.(pc := EnterNew(cur, req), current := req)
    case EnterNew(_, req) => s.(pc := TickCallbacks(req))
    case TickCallbacks(_) => s.(pc := CheckTarget)
  }

  /** The steps of the worker's own loop. */
  function AdvanceLoop(s: State): State
    requires WorkEnabled(s, Work) && !InTick(s.pc)
  {
    match s.pc
    case OnStart => s.(pc := CheckStop, justStarted := true)
    case CheckStop => if s.stopRequested then s.(pc := SetStopped) else s.(pc := LoadCurrent, done := s.done + 1)
    case CheckTarget => s.(pc := if s.done >= s.target then SetStopped else Waiting)
    case Waiting => s.(pc := Draining, sem := s.sem - 1)
    case Draining => s.(sem := s.sem - 1)
    case SetStopped => s.(pc := ExitLast, running := false)
    case ExitLast => s.(pc := StopCallback)
    case StopCallback => s.(pc := Over)
  }

  function Proceed(s: State): State
    requires WorkEnabled(s, Work)
  {
    (if InTick(s.pc) then AdvanceTick(s) else AdvanceLoop(s)).(trace := s.trace + Reported(s))
  }

  lemma ProceedReports(s: State)
    requires WorkEnabled(s, Work)
    ensures var t := Proceed(s); var p := Parse(s.initial, s.trace);
      && Parse(t.initial, t.trace) == (if Reported(s) == [] then p else Next(p, Reported(s)[0]))
      && Ticks(t.trace) == Ticks(s.trace) + if s.pc.TickCallbacks? then 1 else 0
  {
    hide Parse, Ticks, Next;
    if Reported(s) == [] {
      assert s.trace + Reported(s) == s.trace;
    } else {
      Snoc(s.initial, s.trace, Reported(s)[0]);
    }
  }

  function DoStart(s: State, a: StartStep): State
    requires StartEnabled(s, a)
  {
    match a
    case BeginStart(init) => s.(current := init, starter := Resetting(init))
    case StoreInitial => s.(requested := s.starter.init, starter := Replacing(s.starter.init))
    case ReplaceWorker =>
      s.(created := true, starter := Launching(s.starter.init), stopRequested := false, sem := 0, done := 0, target := MAX,
         stored := 0)
    case Launch => s.(starter := NoStart, running := true, pc := OnStart, initial := s.starter.init, trace := [])
  }

  function DoWork(s: State, w: WorkStep): State
    requires WorkEnabled(s, w)
  {
    match w
    case Work => Proceed(s)
    case Timeout => s.(pc := Draining)
    case StopDraining => s.(pc := CheckStop)
  }

  function DoCall(s: State, c: CallStep): State
    requires CallEnabled(s, c)
  {
    match c
    case SetState(state) => s.(requested := state, settling := s.settling + 1)
    case NotifyState => s.(settling := s.settling - 1, sem := s.sem + 1)
    case AskStop => s.(stopRequested := true, stopping := s.stopping + 1)
    case NotifyStop => s.(stopping := s.stopping - 1, sem := s.sem + 1)
    case Plan(n) => s.(plans := s.plans + multiset{StopTarget(s.done, n)})
    case StorePlan(plan) =>
      s.(plans := s.plans - multiset{plan}, target := plan, stored := s.done, planned := s.planned + 1)
    case NotifyPlan => s.(planned := s.planned - 1, sem := s.sem + 1)
    case Notify => s.(sem := s.sem + 1)
  }

  function Do(s: State, step: Step): State
    requires Enabled(s, step)
  {
    match step
    case Starting(a) => DoStart(s, a)
    case Working(w) => DoWork(s, w)
    case Calling(c) => DoCall(s, c)
  }

  // ---- the invariant

  /** The tick has loaded the requested state, and the worker may yet block. */
  predicate Committed(pc: Pc) {
    (InTick(pc) && !pc.LoadCurrent? && !pc.LoadRequested?) || pc.CheckTarget? || pc.Waiting?
  }

  /** Whatever the worker has not seen, a notification has been or will be given for. */
  predicate Requests(s: State) { StatesSeen(s) && StopsSeen(s) }

  predicate StatesSeen(s: State) { Committed(s.pc) ==> s.requested == s.seen || s.sem > 0 || s.settling > 0 }

  predicate StopsSeen(s: State) {
    && (InTick(s.pc) || s.pc.CheckTarget? || s.pc.Waiting? ==> !s.stopRequested || s.sem > 0 || s.stopping > 0)
    && (s.pc.Waiting? ==> s.done < s.target || s.sem > 0 || s.planned > 0)
  }

  predicate Starts(s: State) {
    && (s.running <==> !(s.pc.Over? || s.pc.ExitLast? || s.pc.StopCallback?))
    && (!s.starter.NoStart? ==> !s.running && NoCalls(s))
    && (s.starter.Launching? ==> s.pc.Over? && s.created && s.sem == 0 && !s.stopRequested && s.done == 0 && s.target == MAX)
    && (!s.starter.NoStart? ==> s.current == s.starter.init)
    && (s.starter.Replacing? || s.starter.Launching? ==> s.requested == s.starter.init)
    && (!s.created ==> s.pc.Over? && NoCalls(s))
  }

  /** The counter never wraps, and a stored target leaves at most the promised iterations. */
  predicate Counters(s: State) {
    && s.done <= MAX && s.target <= MAX && s.stored <= s.done
    && (forall p :: p in s.plans ==> p < MAX)
    && (s.pc.OnStart? ==> s.done == 0)
    && (s.pc.OnStart? || s.pc.CheckStop? || s.pc.Waiting? || s.pc.Draining? ==>
          s.done < MAX && (s.done < s.target || s.done == s.stored))
    && (s.done <= s.target || s.done <= s.stored + 1)
  }

  /** The trace so far, and what it owes. */
  predicate Traced(s: State) {
    var p := Parse(s.initial, s.trace);
    match s.pc
    case Over => s.created && s.starter.NoStart? ==> p.Done? || p.Broken?
    case OnStart => p == Begin(s.current)
    case CheckStop => BetweenTicks(s, p)
    case LoadCurrent => BetweenTicks(s, p)
    case LoadRequested(cur) => BetweenTicks(s, p) && cur == s.current
    case FirstEntry(cur, req) => BetweenTicks(s, p) && cur == s.current && req == s.seen
    case Compare(cur, req) => !s.justStarted && cur == s.current && req == s.seen && (p == Entered(cur) || p == Ticked(cur))
    case StoreCurrent(cur, req) => !s.justStarted && cur == s.current && req == s.seen && p == Left(cur, req)
    case EnterNew(cur, req) => !s.justStarted && req == s.current == s.seen && p == Left(cur, req)
    case TickCallbacks(cur) =>
      !s.justStarted && cur == s.current == s.seen && (p == Entered(cur) || p == Moved(cur) || p == Ticked(cur))
    case CheckTarget => !s.justStarted && s.current == s.seen && p == Ticked(s.current)
    case Waiting => !s.justStarted && s.current == s.seen && p == Ticked(s.current)
    case Draining => !s.justStarted && p == Ticked(s.current)
    case SetStopped => BetweenTicks(s, p)
    case ExitLast => (p.Fresh? || p.Ticked?) && (s.starter.NoStart? ==> p.state == s.current)
    case StopCallback => p.Ended? || p.Broken?
  }

  predicate BetweenTicks(s: State, p: Phase) { if s.justStarted then p == Fresh(s.current) else p == Ticked(s.current) }

  /** The iteration counter counts the ticks in the trace. */
  predicate Counted(s: State) {
    (s.starter.NoStart? || !s.pc.Over?) && s.created ==> s.done == Ticks(s.trace) + if InTick(s.pc) then 1 else 0
  }

  predicate Inv(s: State) { Requests(s) && Starts(s) && Counters(s) && Traced(s) && Counted(s) }

  lemma InitHolds()
    ensures Inv(Init())
  {}

  lemma StartKeeps(s: State, a: StartStep)
    requires Inv(s) && StartEnabled(s, a)
    ensures Inv(DoStart(s, a))
  {
    hide Parse, Next, Ticks;
    NoBlocks(s.current);
  }

  /** A call touches neither the worker nor its trace. */
  lemma CallKeeps(s: State, c: CallStep)
    requires Inv(s) && CallEnabled(s, c)
    ensures Inv(DoCall(s, c))
  {
    hide Requests, Starts, Counters, Traced, Counted, DoCall;
    CallKeepsRequests(s, c);
    CallKeepsCounters(s, c);
    CallKeepsTraced(s, c);
  }

  lemma CallKeepsRequests(s: State, c: CallStep)
    requires Inv(s) && CallEnabled(s, c)
    ensures Requests(DoCall(s, c)) && Starts(DoCall(s, c))
  {
    hide Counters, Traced, Counted, StopTarget;
  }

  lemma CallKeepsCounters(s: State, c: CallStep)
    requires Inv(s) && CallEnabled(s, c)
    ensures Counters(DoCall(s, c))
  {
    hide Requests, Traced, Counted;
  }

  lemma CallKeepsTraced(s: State, c: CallStep)
    requires Inv(s) && CallEnabled(s, c)
    ensures Traced(DoCall(s, c)) && Counted(DoCall(s, c))
  {
    hide Requests, Counters, Parse, Next, Ticks, StopTarget;
  }

  lemma TickKeepsStatesSeen(s: State)
    requires Inv(s) && InTick(s.pc)
    ensures StatesSeen(Proceed(s))
  {
    hide StopsSeen, Starts, Counters, Traced, Counted, Reported, AdvanceLoop;
  }

  lemma TickKeepsStopsSeen(s: State)
    requires Inv(s) && InTick(s.pc)
    ensures StopsSeen(Proceed(s))
  {
    hide StatesSeen, Starts, Counters, Traced, Counted, Reported, AdvanceLoop;
  }

  lemma TickKeepsStarts(s: State)
    requires Inv(s) && InTick(s.pc)
    ensures Starts(Proceed(s))
  {
    hide StatesSeen, StopsSeen, Counters, Traced, Counted, Reported, AdvanceLoop;
  }

  lemma TickKeepsCounters(s: State)
    requires Inv(s) && InTick(s.pc)
    ensures Counters(Proceed(s))
  {
    hide StatesSeen, StopsSeen, Traced, Counted, Reported, AdvanceLoop;
  }

  lemma TickKeepsTraced(s: State)
    requires Inv(s) && InTick(s.pc)
    ensures Traced(Proceed(s))
  {
    hide StatesSeen, StopsSeen, Counters, Counted, Parse, Ticks, AdvanceLoop;
    ProceedReports(s);
  }

  lemma TickKeepsCounted(s: State)
    requires Inv(s) && InTick(s.pc)
    ensures Counted(Proceed(s))
  {
    hide StatesSeen, StopsSeen, Counters, Traced, Parse, Next, Ticks, Reported, AdvanceLoop;
    ProceedReports(s);
  }

  /** Outside the tick only the test of the target leads to where the worker may block. */
  lemma LoopCommits(s: State)
    requires WorkEnabled(s, Work) && !InTick(s.pc)
    ensures Committed(AdvanceLoop(s).pc) ==> s.pc.CheckTarget? && AdvanceLoop(s) == s.(pc := Waiting)
  {}

  lemma LoopKeepsStatesSeen(s: State)
    requires Inv(s) && WorkEnabled(s, Work) && !InTick(s.pc)
    ensures StatesSeen(Proceed(s))
  {
    hide StopsSeen, Starts, Counters, Traced, Counted, Reported, AdvanceTick, AdvanceLoop;
    LoopCommits(s);
  }

  lemma LoopKeepsStopsSeen(s: State)
    requires Inv(s) && WorkEnabled(s, Work) && !InTick(s.pc)
    ensures StopsSeen(Proceed(s))
  {
    hide StatesSeen, Starts, Counters, Traced, Counted, Reported, AdvanceTick;
  }

  lemma LoopKeepsStarts(s: State)
    requires Inv(s) && WorkEnabled(s, Work) && !InTick(s.pc)
    ensures Starts(Proceed(s))
  {
    hide StatesSeen, StopsSeen, Counters, Traced, Counted, Reported, AdvanceTick;
  }

  lemma LoopKeepsCounters(s: State)
    requires Inv(s) && WorkEnabled(s, Work) && !InTick(s.pc)
    ensures Counters(Proceed(s))
  {
    hide StatesSeen, StopsSeen, Traced, Counted, Reported, AdvanceTick;
  }

  lemma LoopKeepsTraced(s: State)
    requires Inv(s) && WorkEnabled(s, Work) && !InTick(s.pc)
    ensures Traced(Proceed(s))
  {
    hide StatesSeen, StopsSeen, Counters, Counted, Parse, Ticks, AdvanceTick;
    ProceedReports(s);
  }

  lemma LoopKeepsCounted(s: State)
    requires Inv(s) && WorkEnabled(s, Work) && !InTick(s.pc)
    ensures Counted(Proceed(s))
  {
    hide StatesSeen, StopsSeen, Counters, Traced, Parse, Next, Ticks, Reported, AdvanceTick;
    ProceedReports(s);
  }

  lemma WaitKeeps(s: State, w: WorkStep)
    requires Inv(s) && WorkEnabled(s, w) && !w.Work?
    ensures Inv(DoWork(s, w))
  {
    hide Parse, Next, Ticks;
  }

  lemma StepKeeps(s: State, step: Step)
    requires Inv(s) && Enabled(s, step)
    ensures Inv(Do(s, step))
  {
    hide StatesSeen, StopsSeen, Starts, Counters, Traced, Counted, DoStart, DoCall, Proceed, StartEnabled, CallEnabled;
    match step
    case Starting(a) => StartKeeps(s, a);
    case Calling(c) => CallKeeps(s, c);
    case Working(w) =>
      if w.Work? {
        if InTick(s.pc) {
          TickKeepsStatesSeen(s);
          TickKeepsStopsSeen(s);
          TickKeepsStarts(s);
          TickKeepsCounters(s);
          TickKeepsTraced(s);
          TickKeepsCounted(s);
        } else {
          LoopKeepsStatesSeen(s);
          LoopKeepsStopsSeen(s);
          LoopKeepsStarts(s);
          LoopKeepsCounters(s);
          LoopKeepsTraced(s);
          LoopKeepsCounted(s);
        }
      } else {
        WaitKeeps(s, w);
      }
  }

  // ---- runs

  predicate Path(s: State, steps: seq<Step>)
    decreases |steps|, 0
  {
    steps == [] ||
    (Path(s, steps[..|steps| - 1]) && Enabled(End(s, steps[..|steps| - 1]), steps[|steps| - 1]))
  }

  function End(s: State, steps: seq<Step>): State
    requires Path(s, steps)
    decreases |steps|, 1
  {
    if steps == [] then s else Do(End(s, steps[..|steps| - 1]), steps[|steps| - 1])
  }

  lemma {:induction false} RunKeepsFrom(s: State, steps: seq<Step>)
    requires Inv(s) && Path(s, steps)
    ensures Inv(End(s, steps))
    decreases |steps|
  {
    hide Enabled, Do, Inv;
    if steps == [] {
    } else {
      RunKeepsFrom(s, steps[..|steps| - 1]);
      StepKeeps(End(s, steps[..|steps| - 1]), steps[|steps| - 1]);
    }
  }

  lemma RunKeeps(steps: seq<Step>)
    requires Path(Init(), steps)
    ensures Inv(End(Init(), steps))
  {
    hide Path, End, Inv;
    InitHolds();
    RunKeepsFrom(Init(), steps);
  }

  /** Nothing asked of the worker is lost: when it blocks with an empty semaphore, and no caller stands between a
      store and its notify, the current state is the requested one, no stop is requested, and more iterations are due. */
  lemma NothingIsLost(steps: seq<Step>)
    requires Path(Init(), steps)
    requires var s := End(Init(), steps); s.pc.Waiting? && s.sem == 0
    ensures var s := End(Init(), steps);
      && (s.settling == 0 ==> s.current == s.requested)
      && (s.stopping == 0 ==> !s.stopRequested)
      && (s.planned == 0 ==> s.done < s.target)
  {
    hide Path, End, Starts, Counters, Counted, Parse;
    RunKeeps(steps);
  }

  /** The 64-bit counter never wraps, and once a target has been stored at most the iterations it leaves, or one
      already under way, still begin. */
  lemma IterationsAreBounded(steps: seq<Step>)
    requires Path(Init(), steps)
    ensures var s := End(Init(), steps); s.done <= MAX && (s.done <= s.target || s.done <= s.stored + 1)
    ensures var s := End(Init(), steps); s.running ==> s.done == Ticks(s.trace) + if InTick(s.pc) then 1 else 0
  {
    hide Path, End, Requests, Traced;
    RunKeeps(steps);
  }

  // ---- a stop after some iterations

  /** Steps that neither request a stop, nor move the target, nor start again. */
  predicate Undisturbed(step: Step) { step.Working? || (step.Calling? && !step.c.AskStop? && !step.c.StorePlan?) }

  predicate OutOfLoop(pc: Pc) { pc.SetStopped? || pc.ExitLast? || pc.StopCallback? || pc.Over? }

  predicate Aimed(s: State, target: nat, stored: nat) {
    s.target == target && s.stored == stored && !s.stopRequested && (OutOfLoop(s.pc) ==> s.done >= target)
  }

  lemma TickStaysAimed(s: State, target: nat, stored: nat)
    requires InTick(s.pc) && Aimed(s, target, stored)
    ensures Aimed(AdvanceTick(s), target, stored)
  {}

  lemma LoopStaysAimed(s: State, target: nat, stored: nat)
    requires WorkEnabled(s, Work) && !InTick(s.pc) && Aimed(s, target, stored)
    ensures Aimed(AdvanceLoop(s), target, stored)
  {}

  lemma WorkStaysAimed(s: State, w: WorkStep, target: nat, stored: nat)
    requires WorkEnabled(s, w) && Aimed(s, target, stored)
    ensures Aimed(DoWork(s, w), target, stored)
  {
    hide Reported, AdvanceTick, AdvanceLoop;
    if w.Work? && InTick(s.pc) {
      TickStaysAimed(s, target, stored);
    } else if w.Work? {
      LoopStaysAimed(s, target, stored);
    }
  }

  lemma CallStaysAimed(s: State, c: CallStep, target: nat, stored: nat)
    requires CallEnabled(s, c) && !c.AskStop? && !c.StorePlan? && Aimed(s, target, stored)
    ensures Aimed(DoCall(s, c), target, stored)
  {
    hide StopTarget;
  }

  lemma StepStaysAimed(s: State, step: Step, target: nat, stored: nat)
    requires Enabled(s, step) && Undisturbed(step) && Aimed(s, target, stored)
    ensures Aimed(Do(s, step), target, stored)
  {
    hide Aimed, WorkEnabled, CallEnabled, DoWork, DoCall;
    match step
    case Working(w) => WorkStaysAimed(s, w, target, stored);
    case Calling(c) => CallStaysAimed(s, c, target, stored);
  }

  lemma {:induction false} AimHolds(s: State, steps: seq<Step>, target: nat, stored: nat)
    requires Inv(s) && Path(s, steps) && Aimed(s, target, stored)
    requires forall i :: 0 <= i < |steps| ==> Undisturbed(steps[i])
    ensures Inv(End(s, steps)) && Aimed(End(s, steps), target, stored)
    decreases |steps|
  {
    hide Inv, Aimed, Enabled, Do, Undisturbed;
    if steps == [] {
    } else {
      var front, last := steps[..|steps| - 1], steps[|steps| - 1];
      AimHolds(s, front, target, stored);
      StepKeeps(End(s, front), last);
      StepStaysAimed(End(s, front), last, target, stored);
    }
  }

  /** After `request_stop_after_iterations` has stored its target, and unless another request disturbs it, the worker
      leaves its loop no earlier than the target, and begins no iteration beyond it other than the next one. */
  lemma StopsOnTarget(s: State, steps: seq<Step>)
    requires Inv(s) && s.running && !OutOfLoop(s.pc) && !s.stopRequested && s.stored == s.done
    requires Path(s, steps) && forall i :: 0 <= i < |steps| ==> Undisturbed(steps[i])
    ensures var e := End(s, steps);
      && (OutOfLoop(e.pc) ==> e.done >= s.target)
      && (e.done <= s.target || e.done <= s.done + 1)
  {
    hide Path, End, Requests, Starts, Traced, Counted, Undisturbed;
    AimHolds(s, steps, s.target, s.stored);
  }

  // ---- the trace of a run

  /** The state a run stands in by its trace. */
  function LastEntered(p: Phase): StateId
    requires p.Fresh? || p.Ticked?
  {
    p.state
  }

  /** In every interleaving each entry, exit and tick is delivered as the grammar asks, until the last exit; and while no
      `start` has begun that exit, too, is due to the state entered last. */
  lemma TraceIsAccepted(steps: seq<Step>)
    requires Path(Init(), steps)
    ensures var s := End(Init(), steps);
      (s.running || s.pc.ExitLast?) ==> !Parse(s.initial, s.trace).Broken?
    ensures var s := End(Init(), steps); var p := Parse(s.initial, s.trace);
      s.pc.ExitLast? ==> (p.Fresh? || p.Ticked?) && (s.starter.NoStart? ==> s.current == LastEntered(p))
  {
    hide Path, End, Requests, Counters, Counted, Parse, Next;
    RunKeeps(steps);
  }

  /** The trace of a run whose callbacks are not all done, or just done, is as the grammar asks and will remain so. */
  predicate OldRunSafe(s: State) {
    var p := Parse(s.initial, s.trace);
    && !s.starter.NoStart? && !p.Broken?
    && (s.pc.ExitLast? ==> (p.Fresh? || p.Ticked?) && s.current == LastEntered(p))
  }

  lemma StepKeepsOldRun(s: State, step: Step)
    requires Inv(s) && Enabled(s, step) && step != Starting(Launch) && OldRunSafe(s)
    ensures OldRunSafe(Do(s, step))
  {
    hide Requests, Counters, Counted, Parse, Ticks;
    match step
    case Starting(_) =>
    case Calling(c) => NoCallsBeside(s, c);
    case Working(w) =>
      assert !s.running;
      if w.Work? {
        ProceedReports(s);
      }
  }

  lemma NoCallsBeside(s: State, c: CallStep)
    requires Starts(s) && !s.starter.NoStart?
    ensures !CallEnabled(s, c)
  {}

  lemma {:induction false} OldRunStaysSafe(s: State, steps: seq<Step>)
    requires Inv(s) && Path(s, steps) && OldRunSafe(s)
    requires forall i :: 0 <= i < |steps| ==> steps[i] != Starting(Launch)
    ensures OldRunSafe(End(s, steps))
    decreases |steps|
  {
    hide Inv, OldRunSafe, Enabled, Do;
    if steps == [] {
    } else {
      var front, last := steps[..|steps| - 1], steps[|steps| - 1];
      OldRunStaysSafe(s, front);
      RunKeepsFrom(s, front);
      StepKeepsOldRun(End(s, front), last);
    }
  }

  predicate Misdirects(s: State, init: StateId) { s.pc.ExitLast? && init != s.current }

  /** The next step of a run whose state was overwritten reports the wrong exit. */
  lemma MisdirectedExit(s: State, init: StateId)
    requires Inv(s) && StartEnabled(s, BeginStart(init)) && Misdirects(s, init)
    ensures var t := DoStart(s, BeginStart(init));
      Path(t, [Working(Work)]) && Parse(End(t, [Working(Work)]).initial, End(t, [Working(Work)]).trace).Broken?
  {
    hide Requests, Counters, Counted, Parse, Ticks;
    var t := DoStart(s, BeginStart(init));
    assert [Working(Work)][..0] == [] && Path(t, []);
    ProceedReports(t);
  }

  /** A `start` that `is_running` admits leaves the trace of the run before it as the grammar asks, whatever happens until
      the new thread is launched, exactly when that run's exit callbacks have begun or its state is the initial one. */
  lemma StartIsSafeIff(s: State, init: StateId)
    requires Inv(s) && StartEnabled(s, BeginStart(init)) && !Parse(s.initial, s.trace).Broken?
    ensures var t := DoStart(s, BeginStart(init));
      !Misdirects(s, init) <==>
        forall steps | Path(t, steps) && (forall i :: 0 <= i < |steps| ==> steps[i] != Starting(Launch))
          :: !Parse(End(t, steps).initial, End(t, steps).trace).Broken?
  {
    hide Path, End, Requests, Counters, Counted, Parse, Next, DoWork, DoCall;
    var t := DoStart(s, BeginStart(init));
    StartKeeps(s, BeginStart(init));
    if Misdirects(s, init) {
      MisdirectedExit(s, init);
    } else {
      forall steps | Path(t, steps) && (forall i :: 0 <= i < |steps| ==> steps[i] != Starting(Launch))
        ensures !Parse(End(t, steps).initial, End(t, steps).trace).Broken?
      {
        OldRunStaysSafe(t, steps);
      }
    }
  }

  lemma Extend(steps: seq<Step>, step: Step) returns (longer: seq<Step>)
    requires Path(Init(), steps) && Enabled(End(Init(), steps), step)
    ensures Path(Init(), longer) && End(Init(), longer) == Do(End(Init(), steps), step)
  {
    hide Enabled, Do;
    longer := steps + [step];
    assert longer[..|longer| - 1] == steps;
  }

  lemma LaunchedRun(a: StateId) returns (steps: seq<Step>)
    ensures Path(Init(), steps)
    ensures var s := End(Init(), steps);
      s == Init().(created := true, current := a, requested := a, running := true, pc := OnStart, initial := a)
  {
    hide Path, End, DoCall, DoWork;
    steps := [];
    assert Path(Init(), []) && End(Init(), []) == Init() by { NoSteps(); }
    steps := Extend(steps, Starting(BeginStart(a)));
    steps := Extend(steps, Starting(StoreInitial));
    steps := Extend(steps, Starting(ReplaceWorker));
    steps := Extend(steps, Starting(Launch));
  }

  lemma NoSteps()
    ensures Path(Init(), []) && End(Init(), []) == Init()
  {}

  lemma StoppedRun(a: StateId) returns (steps: seq<Step>)
    ensures Path(Init(), steps)
    ensures var s := End(Init(), steps);
      && s.pc.ExitLast? && s.current == a && s.starter.NoStart? && !s.running && NoCalls(s)
      && s.initial == a && s.trace == [Start]
  {
    hide Path, End, DoStart;
    steps := LaunchedRun(a);
    steps := Extend(steps, Calling(AskStop));
    steps := Extend(steps, Calling(NotifyStop));
    steps := Extend(steps, Working(Work));
    steps := Extend(steps, Working(Work));
    steps := Extend(steps, Working(Work));
  }

  /** `is_running` turns false before the stop callbacks run, so a `start` that trusts it can make the old run exit a
      state that run was never in. */
  lemma StartCanMisdirectExit(a: StateId, b: StateId) returns (steps: seq<Step>)
    requires a != b
    ensures Path(Init(), steps)
    ensures var s := End(Init(), steps); s.initial == a && s.trace == [Start, Exit(b, b)] && Parse(a, s.trace).Broken?
  {
    hide Path, End;
    steps := StoppedRun(a);
    steps := Extend(steps, Starting(BeginStart(b)));
    steps := Extend(steps, Working(Work));
    assert [Start, Exit(b, b)] == [Start] + [Exit(b, b)];
    Snoc(a, [Start], Exit(b, b));
    Snoc(a, [], Start);
  }
}
