/** What a worker gets done: a requested state is entered, a stop ends the loop, and one asked for after some iterations
    comes after that many. */
module WorkerProgress {
  import opened StateTrace
  import opened WorkerProtocol

  // ---- the thread by itself

  /** The step the thread takes next: in its wait it is woken by a notification, or else times out. */
  function NextWork(s: State): WorkStep {
    if s.pc.Waiting? && s.sem == 0 then Timeout else if s.pc.Draining? && s.sem == 0 then StopDraining else Work
  }

  predicate OnlyWork(steps: seq<Step>) { forall step :: step in steps ==> step.Working? }

  /** No wait of the run had to time out. */
  predicate Prompt(steps: seq<Step>) { Working(Timeout) !in steps }

  /** What callers store, a step of the thread leaves alone. */
  predicate SameRequests(s: State, r: State) {
    && r.requested == s.requested && r.stopRequested == s.stopRequested && r.target == s.target && r.stored == s.stored
    && r.created == s.created && r.starter == s.starter && r.initial == s.initial
  }

  lemma WorkFrame(s: State, w: WorkStep)
    requires WorkEnabled(s, w)
    ensures SameRequests(s, DoWork(s, w))
  {
    hide Reported, AdvanceTick, AdvanceLoop;
    if w.Work? {
      if InTick(s.pc) {
        TickFrame(s);
      } else {
        LoopFrame(s);
      }
    }
  }

  lemma TickFrame(s: State)
    requires InTick(s.pc)
    ensures SameRequests(s, AdvanceTick(s))
  {}

  lemma LoopFrame(s: State)
    requires WorkEnabled(s, Work) && !InTick(s.pc)
    ensures SameRequests(s, AdvanceLoop(s))
  {}

  /** Steps of its own before the test of the target, or before it finds a stop requested. */
  function ToTest(pc: Pc): nat {
    match pc
    case Waiting => 10
    case OnStart => 9
    case Draining => 9
    case CheckStop => 8
    case LoadCurrent => 7
    case LoadRequested(_) => 6
    case FirstEntry(_, _) => 5
    case Compare(_, _) => 4
    case StoreCurrent(_, _) => 3
    case EnterNew(_, _) => 2
    case TickCallbacks(_) => 1
    case _ => 0
  }

  /** The tick under way has not loaded the requested state. */
  predicate ToLoad(pc: Pc) { ToTest(pc) >= 6 }

  /** It has begun. */
  predicate Begun(pc: Pc) { InTick(pc) || pc.CheckTarget? }

  predicate AtTest(pc: Pc) { pc.CheckTarget? || pc.SetStopped? }

  lemma InLoop(s: State)
    requires Inv(s) && s.running
    ensures ToLoad(s.pc) || Begun(s.pc) || s.pc.SetStopped?
  {
    hide Requests, Counters, Traced, Counted;
  }

  lemma WorkAdvances(s: State)
    requires Inv(s) && s.running && !AtTest(s.pc)
    ensures WorkEnabled(s, NextWork(s))
    ensures var r := DoWork(s, NextWork(s));
      && r.running && (ToTest(r.pc) < ToTest(s.pc) || (r.pc == s.pc && r.sem < s.sem))
      && (Begun(s.pc) ==> Begun(r.pc)) && (!Begun(s.pc) && r.pc.SetStopped? ==> s.stopRequested)
      && r.done == s.done + (if Begun(r.pc) && !Begun(s.pc) then 1 else 0)
      && (s.stopRequested && !Begun(s.pc) ==> !Begun(r.pc))
      && (ToLoad(s.pc) && !ToLoad(r.pc) && Begun(r.pc) ==> r.seen == s.requested) && (!ToLoad(s.pc) ==> r.seen == s.seen)
      && !r.pc.Waiting? && (Begun(s.pc) ==> r.sem == s.sem)
    ensures NextWork(s) == Timeout ==> s.pc.Waiting? && s.sem == 0
  {
    hide Requests, Counters, Traced, Counted, Reported;
  }

  lemma {:induction false} Joined(s: State, a: seq<Step>, b: seq<Step>)
    requires Path(s, a) && Path(End(s, a), b)
    ensures Path(s, a + b) && End(s, a + b) == End(End(s, a), b)
    decreases |b|
  {
    hide Enabled, Do;
    if b == [] {
      assert a + b == a;
    } else {
      var front, last := b[..|b| - 1], b[|b| - 1];
      Joined(s, a, front);
      assert (a + b)[..|a + b| - 1] == a + front;
    }
  }

  lemma OneStep(s: State, step: Step)
    requires Enabled(s, step)
    ensures Path(s, [step]) && End(s, [step]) == Do(s, step)
  {
    hide Enabled, Do;
    assert [step][..0] == [];
  }

  /** A run of the thread alone. */
  predicate Runs(s: State, steps: seq<Step>) {
    Path(s, steps) && OnlyWork(steps) && Inv(End(s, steps)) && SameRequests(s, End(s, steps))
  }

  lemma RunsNowhere(s: State)
    requires Inv(s)
    ensures Runs(s, []) && End(s, []) == s
  {
    hide Inv;
  }

  lemma RunsOne(s: State, w: WorkStep)
    requires Inv(s) && WorkEnabled(s, w)
    ensures Inv(DoWork(s, w)) && Runs(s, [Working(w)]) && End(s, [Working(w)]) == DoWork(s, w)
  {
    hide Inv, WorkEnabled, DoWork, Path, End;
    OneStep(s, Working(w));
    StepKeeps(s, Working(w));
    WorkFrame(s, w);
  }

  lemma RunsBoth(s: State, a: seq<Step>, b: seq<Step>)
    requires Runs(s, a) && Runs(End(s, a), b)
    ensures Runs(s, a + b) && End(s, a + b) == End(End(s, a), b)
  {
    hide Inv, Path, End;
    Joined(s, a, b);
  }

  /** The thread comes to the test of its target, through a tick in the requested state unless the tick under way has
      loaded another; or, between two ticks, to a stop requested. */
  lemma TestReached(s: State) returns (steps: seq<Step>)
    requires Inv(s) && s.running
    ensures Runs(s, steps)
    ensures var e := End(s, steps);
      && e.running && AtTest(e.pc) && (s.pc.SetStopped? ==> e == s)
      && (!s.pc.SetStopped? ==> (e.pc.CheckTarget? <==> Begun(s.pc) || !s.stopRequested))
      && e.done == s.done + (if e.pc.CheckTarget? && !Begun(s.pc) then 1 else 0)
      && (ToLoad(s.pc) && e.pc.CheckTarget? ==> e.seen == s.requested) && (!ToLoad(s.pc) ==> e.seen == s.seen)
      && (Begun(s.pc) ==> e.sem == s.sem)
    ensures !s.pc.Waiting? || s.sem > 0 ==> Prompt(steps)
    decreases ToTest(s.pc), s.sem
  {
    hide Inv, Runs, Path, End, WorkEnabled, DoWork, NextWork;
    if AtTest(s.pc) {
      RunsNowhere(s);
      steps := [];
    } else {
      WorkAdvances(s);
      var w := NextWork(s);
      RunsOne(s, w);
      WorkFrame(s, w);
      InLoop(DoWork(s, w));
      var rest := TestReached(DoWork(s, w));
      RunsBoth(s, [Working(w)], rest);
      steps := [Working(w)] + rest;
    }
  }

  /** Any caller can notify, and that alone wakes a waiting thread. */
  lemma NotifyWakes(s: State)
    requires Callable(s) && s.pc.Waiting?
    ensures CallEnabled(s, Notify) && var r := DoCall(s, Notify);
      r.sem == s.sem + 1 && WorkEnabled(r, Work) && DoWork(r, Work).pc.Draining?
  {}

  /** However many notifications came, they make for one early tick: the thread leaves its wait only with all of them
      taken. */
  lemma WaitTakesAll(s: State, w: WorkStep)
    requires (s.pc.Waiting? || s.pc.Draining?) && WorkEnabled(s, w)
    ensures var r := DoWork(s, w);
      (r.pc.Draining? && r.sem == s.sem - (if w.Work? then 1 else 0)) || (r.pc.CheckStop? && r.sem == s.sem == 0)
  {}

  lemma TickedHere(s: State)
    requires Inv(s) && s.pc.CheckTarget?
    ensures s.current == s.seen && Parse(s.initial, s.trace) == Ticked(s.current)
  {
    hide Requests, Counters, Counted, Parse;
  }

  lemma WaitsNext(s: State)
    requires s.pc.CheckTarget?
    ensures WorkEnabled(s, Work) && DoWork(s, Work) == s.(pc := if s.done >= s.target then SetStopped else Waiting)
  {
    assert s.trace + [] == s.trace;
  }

  /** While iterations remain and no stop is requested, the thread by itself comes to a tick in the requested state, and
      once notified does not wait for a time-out on the way. */
  lemma StateIsEntered(s: State) returns (steps: seq<Step>)
    requires Inv(s) && s.running && !s.pc.SetStopped? && !s.stopRequested && s.done < s.target
    ensures Runs(s, steps)
    ensures var e := End(s, steps);
      e.pc.CheckTarget? && e.current == s.requested && Parse(e.initial, e.trace) == Ticked(s.requested)
    ensures s.sem > 0 ==> Prompt(steps)
  {
    hide Inv, Path, End, WorkEnabled, DoWork, Parse;
    InLoop(s);
    steps := TestReached(s);
    if !ToLoad(s.pc) {
      var u := End(s, steps);
      WaitsNext(u);
      RunsOne(u, Work);
      RunsBoth(s, steps, [Working(Work)]);
      steps := steps + [Working(Work)];
      var rest := TestReached(DoWork(u, Work));
      RunsBoth(s, steps, rest);
      steps := steps + rest;
    }
    TickedHere(End(s, steps));
  }

  // ---- leaving the loop

  /** A stop requested is found without another iteration, and once notified without a time-out. */
  lemma StopIsFound(s: State) returns (steps: seq<Step>)
    requires Inv(s) && s.running && s.stopRequested
    ensures Runs(s, steps) && End(s, steps).pc.SetStopped? && End(s, steps).done == s.done
    ensures s.sem > 0 ==> Prompt(steps)
  {
    hide Inv, Path, End, WorkEnabled, DoWork;
    steps := TestReached(s);
    var u := End(s, steps);
    if u.pc.CheckTarget? {
      WaitsNext(u);
      RunsOne(u, Work);
      RunsBoth(s, steps, [Working(Work)]);
      steps := steps + [Working(Work)];
      var rest := TestReached(DoWork(u, Work));
      RunsBoth(s, steps, rest);
      steps := steps + rest;
    }
  }

  /** A target is reached on the iteration it names, or on the one under way or due when it has passed. */
  lemma TargetIsFound(s: State) returns (steps: seq<Step>)
    requires Inv(s) && s.running && !s.pc.SetStopped? && !s.stopRequested && s.target < MAX
    ensures Runs(s, steps) && End(s, steps).pc.SetStopped?
    ensures var last := if Begun(s.pc) then s.done else s.done + 1;
      End(s, steps).done == if last < s.target then s.target else last
    decreases s.target - s.done, Begun(s.pc)
  {
    hide Inv, Path, End, WorkEnabled, DoWork;
    steps := TestReached(s);
    var u := End(s, steps);
    WaitsNext(u);
    RunsOne(u, Work);
    RunsBoth(s, steps, [Working(Work)]);
    steps := steps + [Working(Work)];
    if u.done < u.target {
      var rest := TargetIsFound(DoWork(u, Work));
      RunsBoth(s, steps, rest);
      steps := steps + rest;
    }
  }

  /** Out of its loop the thread reports itself stopped, exits the current state, and returns. */
  lemma ThreadReturns(s: State) returns (steps: seq<Step>)
    requires Inv(s) && s.pc.SetStopped?
    ensures Runs(s, steps)
    ensures var e := End(s, steps);
      e.pc.Over? && !e.running && e.done == s.done && e.trace == s.trace + [Exit(s.current, s.current), Block.Stop]
    ensures Prompt(steps)
  {
    hide Inv, Path, End;
    steps := [Working(Work)];
    RunsOne(s, Work);
    var s1 := DoWork(s, Work);
    RunsOne(s1, Work);
    RunsBoth(s, steps, [Working(Work)]);
    steps := steps + [Working(Work)];
    var s2 := DoWork(s1, Work);
    RunsOne(s2, Work);
    RunsBoth(s, steps, [Working(Work)]);
    steps := steps + [Working(Work)];
  }

  /** `request_stop`, at any time and from its store on, can be obeyed by the thread alone: it begins no further iteration,
      and waits for no time-out once notified. */
  lemma StopIsObeyed(s: State, notified: bool) returns (steps: seq<Step>)
    requires Inv(s) && s.running && Callable(s)
    ensures CallEnabled(s, AskStop)
    ensures var asked := DoCall(s, AskStop);
      && CallEnabled(asked, NotifyStop) && var r := if notified then DoCall(asked, NotifyStop) else asked;
      && Runs(r, steps) && var e := End(r, steps);
      && e.pc.Over? && !e.running && e.done == s.done && (notified ==> Prompt(steps))
  {
    hide Inv, Path, End, Runs;
    var asked := DoCall(s, AskStop);
    CallKeeps(s, AskStop);
    CallKeeps(asked, NotifyStop);
    var r := if notified then DoCall(asked, NotifyStop) else asked;
    steps := StopIsFound(r);
    EndsInv(r, steps);
    var rest := ThreadReturns(End(r, steps));
    RunsBoth(r, steps, rest);
    steps := steps + rest;
  }

  /** `set_state`, while iterations remain and no stop is requested: from its store on the thread by itself comes to a tick
      in that state, and waits for no time-out once notified. */
  lemma SetStateIsObeyed(s: State, state: StateId, notified: bool) returns (steps: seq<Step>)
    requires Inv(s) && s.running && !s.pc.SetStopped? && !s.stopRequested && s.done < s.target
    requires Callable(s)
    ensures CallEnabled(s, SetState(state))
    ensures var stored := DoCall(s, SetState(state));
      && CallEnabled(stored, NotifyState) && var r := if notified then DoCall(stored, NotifyState) else stored;
      && Runs(r, steps) && var e := End(r, steps);
      && e.current == state && Parse(e.initial, e.trace) == Ticked(state) && (notified ==> Prompt(steps))
  {
    hide Inv, Path, End, Runs, Parse;
    var stored := DoCall(s, SetState(state));
    CallKeeps(s, SetState(state));
    CallKeeps(stored, NotifyState);
    var r := if notified then DoCall(stored, NotifyState) else stored;
    steps := StateIsEntered(r);
  }

  lemma EndsInv(s: State, steps: seq<Step>)
    requires Runs(s, steps)
    ensures Path(s, steps) && Inv(End(s, steps))
  {
    hide Inv, Path, End;
  }

  // ---- a stop after `n` more iterations

  /** The iteration a request for `n` more aims for: that many on from the counter it loads, but never the last value of
      the counter, which means no target. */
  function Goal(done: nat, n: nat): nat { if done + n < MAX then done + n else MAX - 1 }

  lemma PlanAims(s: State, n: nat)
    requires Inv(s) && Callable(s) && 0 < n <= MAX
    ensures CallEnabled(s, Plan(n))
    ensures DoCall(s, Plan(n)).plans == s.plans + multiset{if s.done + n < MAX then s.done + n else MAX - 1}
    ensures s.done < MAX ==> s.done <= Goal(s.done, n) < MAX
  {
    hide Requests, Starts, Traced, Counted;
  }

  /** `request_stop_after_iterations(n)`, from its load of the counter on: whatever happens before its target is stored,
      and in every run after that which no other request disturbs, the worker leaves its loop no earlier than `n`
      iterations after the load, and passes that by no more than the iteration then under way or due. */
  lemma RequestIsHonoured(s: State, n: nat, between: seq<Step>, steps: seq<Step>)
    requires Inv(s) && Callable(s) && 0 < n <= MAX
    requires CallEnabled(s, Plan(n)) && Path(DoCall(s, Plan(n)), between)
    requires var goal, u := Goal(s.done, n), End(DoCall(s, Plan(n)), between);
      && CallEnabled(u, StorePlan(goal)) && u.running && !OutOfLoop(u.pc) && !u.stopRequested
      && Path(DoCall(u, StorePlan(goal)), steps)
    requires forall i :: 0 <= i < |steps| ==> Undisturbed(steps[i])
    ensures Goal(s.done, n) in DoCall(s, Plan(n)).plans
    ensures var goal, u := Goal(s.done, n), End(DoCall(s, Plan(n)), between);
      var e := End(DoCall(u, StorePlan(goal)), steps);
      (OutOfLoop(e.pc) ==> e.done >= goal) && (e.done <= goal || e.done <= u.done + 1)
  {
    hide Inv, Path, End, Undisturbed, CallEnabled;
    var r, goal := DoCall(s, Plan(n)), Goal(s.done, n);
    PlanAims(s, n);
    CallKeeps(s, Plan(n));
    RunKeepsFrom(r, between);
    var u := End(r, between);
    CallKeeps(u, StorePlan(goal));
    StoredPlan(u, goal);
    StopsOnTarget(DoCall(u, StorePlan(goal)), steps);
  }

  lemma StoredPlan(s: State, goal: nat)
    requires CallEnabled(s, StorePlan(goal))
    ensures var r := DoCall(s, StorePlan(goal));
      && r.target == goal && r.stored == r.done == s.done && r.running == s.running && r.pc == s.pc
      && r.stopRequested == s.stopRequested
  {}

  /** And it does leave the loop: from the store on the thread by itself does so on that very iteration, when that is still
      to come. */
  lemma RequestIsObeyed(s: State, goal: nat) returns (steps: seq<Step>)
    requires Inv(s) && goal in s.plans && s.running && !OutOfLoop(s.pc) && !s.stopRequested
    ensures CallEnabled(s, StorePlan(goal)) && CallEnabled(DoCall(s, StorePlan(goal)), NotifyPlan)
    ensures var r := DoCall(s, StorePlan(goal));
      && Runs(r, steps) && var e := End(r, steps);
      && e.pc.Over? && !e.running && (s.done < goal ==> e.done == goal) && (s.done >= goal ==> e.done <= s.done + 1)
  {
    hide Inv, Path, End, Runs;
    var r := DoCall(s, StorePlan(goal));
    CallKeeps(s, StorePlan(goal));
    StoredPlan(s, goal);
    PlansFit(s, goal);
    steps := TargetIsFound(r);
    EndsInv(r, steps);
    var rest := ThreadReturns(End(r, steps));
    RunsBoth(r, steps, rest);
    steps := steps + rest;
  }

  lemma PlansFit(s: State, goal: nat)
    requires Inv(s) && CallEnabled(s, StorePlan(goal))
    ensures goal < MAX
  {
    hide Requests, Starts, Traced, Counted;
  }

  // ---- what the counters count

  predicate Gives(s: State, step: Step) {
    step.Calling? && (step.c.NotifyState? || step.c.NotifyStop? || step.c.NotifyPlan? || step.c.Notify?)
  }

  predicate Consumes(s: State, step: Step) { step == Working(Work) && (s.pc.Waiting? || s.pc.Draining?) }

  predicate Plans(s: State, step: Step) { step.Calling? && step.c.Plan? }

  predicate StoresPlan(s: State, step: Step) { step.Calling? && step.c.StorePlan? }

  predicate SetsState(s: State, step: Step) { step.Calling? && step.c.SetState? }

  predicate AsksStop(s: State, step: Step) { step.Calling? && step.c.AskStop? }

  predicate NotifiesState(s: State, step: Step) { step == Calling(NotifyState) }

  predicate NotifiesStop(s: State, step: Step) { step == Calling(NotifyStop) }

  predicate NotifiesPlan(s: State, step: Step) { step == Calling(NotifyPlan) }

  function One(b: bool): nat { if b then 1 else 0 }

  /** Every notification adds one to the semaphore, every wake-up takes one, and every call is between its store and its
      notify exactly once. */
  predicate Tallied(s: State, r: State, step: Step) {
    && r.sem + One(Consumes(s, step)) == s.sem + One(Gives(s, step))
    && r.settling + One(NotifiesState(s, step)) == s.settling + One(SetsState(s, step))
    && r.stopping + One(NotifiesStop(s, step)) == s.stopping + One(AsksStop(s, step))
    && r.planned + One(NotifiesPlan(s, step)) == s.planned + One(StoresPlan(s, step))
    && |r.plans| + One(StoresPlan(s, step)) == |s.plans| + One(Plans(s, step))
  }

  lemma StepCounts(s: State, step: Step)
    requires Enabled(s, step) && step != Starting(ReplaceWorker)
    ensures Tallied(s, Do(s, step), step)
  {
    hide StartEnabled, WorkEnabled, CallEnabled, DoStart, DoWork, DoCall, Tallied;
    match step
    case Starting(a) => StartCounts(s, a);
    case Working(w) => WorkCounts(s, w);
    case Calling(c) => CallCounts(s, c);
  }

  lemma StartCounts(s: State, a: StartStep)
    requires StartEnabled(s, a) && !a.ReplaceWorker?
    ensures Tallied(s, DoStart(s, a), Starting(a))
  {}

  lemma WorkCounts(s: State, w: WorkStep)
    requires WorkEnabled(s, w)
    ensures Tallied(s, DoWork(s, w), Working(w))
  {
    hide Reported, AdvanceTick, AdvanceLoop;
    if w.Work? {
      if InTick(s.pc) {
        TickCounts(s);
      } else {
        LoopCounts(s);
      }
    }
  }

  lemma TickCounts(s: State)
    requires InTick(s.pc)
    ensures var r := AdvanceTick(s);
      && r.sem == s.sem && r.settling == s.settling && r.stopping == s.stopping && r.planned == s.planned
      && r.plans == s.plans
  {}

  lemma LoopCounts(s: State)
    requires WorkEnabled(s, Work) && !InTick(s.pc)
    ensures var r := AdvanceLoop(s);
      && r.sem + One(s.pc.Waiting? || s.pc.Draining?) == s.sem
      && r.settling == s.settling && r.stopping == s.stopping && r.planned == s.planned && r.plans == s.plans
  {}

  lemma CallCounts(s: State, c: CallStep)
    requires CallEnabled(s, c)
    ensures Tallied(s, DoCall(s, c), Calling(c))
  {
    hide StopTarget;
  }

  /** Over a run: how often `p` holds of a step and the state it is taken in. */
  function Times(s: State, steps: seq<Step>, p: (State, Step) -> bool): nat
    requires Path(s, steps)
    decreases |steps|
  {
    if steps == [] then 0
    else
      var front := steps[..|steps| - 1];
      Times(s, front, p) + One(p(End(s, front), steps[|steps| - 1]))
  }

  /** Notifications are conserved: in every run that replaces no worker, those given have been consumed or are still in the
      semaphore, and every call that stored something has notified or is yet to. */
  lemma {:induction false} NotificationsConserved(s: State, steps: seq<Step>)
    requires Path(s, steps) && Starting(ReplaceWorker) !in steps
    ensures var e := End(s, steps);
      && e.sem + Times(s, steps, Consumes) == s.sem + Times(s, steps, Gives)
      && e.settling + Times(s, steps, NotifiesState) == s.settling + Times(s, steps, SetsState)
      && e.stopping + Times(s, steps, NotifiesStop) == s.stopping + Times(s, steps, AsksStop)
      && e.planned + Times(s, steps, NotifiesPlan) == s.planned + Times(s, steps, StoresPlan)
      && |e.plans| + Times(s, steps, StoresPlan) == |s.plans| + Times(s, steps, Plans)
    decreases |steps|
  {
    hide Enabled, Do, Gives, Consumes, Plans, StoresPlan, SetsState, AsksStop, NotifiesState, NotifiesStop, NotifiesPlan;
    if steps == [] {
    } else {
      var front, last := steps[..|steps| - 1], steps[|steps| - 1];
      NotificationsConserved(s, front);
      StepCounts(End(s, front), last);
    }
  }
}
