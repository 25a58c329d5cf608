/** Every interleaving of a TCP server's starts, listeners, sessions and stopping thread. */
module ServerProtocol {

  type Id = nat

  /** `start`, from claiming `m_running` on; from `Preparing` on it holds the start/stop mutex. */
  datatype Start = NoStart | Claimed | Preparing | Binding | Announcing | Unlocking

  /** The I/O pool behind `m_context`. */
  datatype Context = NoContext | Created | Running | Stopped

  /** A listener coroutine between two atomic steps. */
  datatype Listener =
    | Top                      // before loading m_stop_in_operation
    | Accepting
    | Accepted                 // a connection came in: before the second load
    | Creating                 // before an id is taken
    | Numbered(id: Id)         // before the session is counted
    | Counted(id: Id)          // counted, before it is entered in m_sessions
    | Failing                  // about to call stop_async
    | Leaving                  // about to leave m_acceptors_running_count

  /** The stopping thread. */
  datatype Stopper =
    | NoStopper
    | Closing | Looking | AwaitingListeners | Disconnecting | AwaitingSessions
    | StoppingContext | AwaitingContext | Publishing

  datatype State = State(
    running: bool,             // m_running
    stopInOperation: bool,     // m_stop_in_operation
    start: Start,
    context: Context,
    listeners: map<nat, Listener>,
    runningCount: int,         // m_acceptors_running_count
    lastId: Id,
    active: int,               // m_active_sessions
    mapped: set<Id>,           // the keys of m_sessions
    stopper: Stopper,
    // history
    open: set<Id>,             // sessions counted and not released
    erased: set<Id>,           // sessions erased and not yet released
    asked: set<Id>,            // sessions told to stop by the server
    startFailed: bool)         // the last start that ended threw

  function Init(): State {
    State(false, true, NoStart, NoContext, map[], 0, 0, 0, {}, NoStopper, {}, {}, {}, false)
  }

  /** The critical regions of `start`. */
  datatype StartStep =
    | ClaimRunning | LockStart | CreateContext | Bind(acceptors: set<nat>) | StartThrows | RunContext | UnlockStart

  /** The moves of a listener coroutine. */
  datatype Move =
    | LoadStop | AcceptOk | AcceptRetry | AcceptFatal | LoadStopAgain | TakeId | Reject | SetupFails | CountSession
    | EnterSession | EnterFails | ListenerStops | Leave

  /** What the stopping thread does, in order. */
  datatype StopperStep =
    | CloseAcceptors | LookAtContext | ListenersGone | DisconnectAll | SessionsGone | StopContext | ContextGone
    | PublishStopped

  datatype Step =
    | Starting(a: StartStep)
    | RequestStop
    | Listening(l: nat, move: Move)
    | EraseSession(id: Id)
    | ReleaseSession(id: Id)
    | Drain                    // the context runs out of work
    | Stopping(p: StopperStep)

  predicate MutexFree(s: State) { s.start.NoStart? || s.start.Claimed? }

  /** `stop_async` has the mutex. Its new stopping thread may already run while the assignment to the thread object
      joins the old one; but unless a start has overlapped a stopping thread, the old one has published by then. */
  predicate CanStop(s: State) { MutexFree(s) && (!s.stopInOperation ==> s.stopper.NoStopper?) }

  predicate BeingCounted(s: State, id: Id) { exists l :: l in s.listeners && s.listeners[l] == Counted(id) }

  predicate StartEnabled(s: State, a: StartStep) {
    match a
    case ClaimRunning => !s.running && s.start.NoStart?
    case LockStart => s.start.Claimed?
    case CreateContext => s.start.Preparing?
    case Bind(acceptors) => s.start.Binding? && acceptors != {}
    case StartThrows => s.start.Preparing? || s.start.Binding? || s.start.Announcing?
    case RunContext => s.start.Announcing?
    case UnlockStart => s.start.Unlocking?
  }

  predicate MoveEnabled(s: State, l: nat, move: Move) {
    s.context.Running? && l in s.listeners &&
    match move
    case LoadStop => s.listeners[l].Top?
    case AcceptOk => s.listeners[l].Accepting?
    case AcceptRetry => s.listeners[l].Accepting?
    case AcceptFatal => s.listeners[l].Accepting?
    case LoadStopAgain => s.listeners[l].Accepted?
    case TakeId => s.listeners[l].Creating?
    case Reject => s.listeners[l].Creating?
    case SetupFails => s.listeners[l].Numbered?
    case CountSession => s.listeners[l].Numbered?
    case EnterSession => s.listeners[l].Counted?
    case EnterFails => s.listeners[l].Counted?
    case ListenerStops => s.listeners[l].Failing? && CanStop(s)
    case Leave => s.listeners[l].Leaving?
  }

  predicate StopperEnabled(s: State, p: StopperStep) {
    match p
    case CloseAcceptors => s.stopper.Closing?
    case LookAtContext => s.stopper.Looking?
    case ListenersGone => s.stopper.AwaitingListeners? && s.runningCount == 0
    case DisconnectAll => s.stopper.Disconnecting?
    case SessionsGone => s.stopper.AwaitingSessions? && s.active == 0
    case StopContext => s.stopper.StoppingContext?
    case ContextGone => s.stopper.AwaitingContext? && !s.context.Running?
    case PublishStopped => s.stopper.Publishing?
  }

  predicate Enabled(s: State, step: Step) {
    match step
    case Starting(a) => StartEnabled(s, a)
    case RequestStop => CanStop(s)
    case Listening(l, move) => MoveEnabled(s, l, move)
    case EraseSession(id) => s.context.Running? && id in s.open && id !in s.erased && !BeingCounted(s, id)
    case ReleaseSession(id) => s.context.Running? && id in s.erased
    case Drain => s.context.Running? && s.listeners == map[] && s.open == {}
    case Stopping(p) => StopperEnabled(s, p)
  }

  function Go(s: State, l: nat, pc: Listener): (r: State)
    requires l in s.listeners
    ensures r.listeners.Keys == s.listeners.Keys && |r.listeners| == |s.listeners|
  {
    assert s.listeners[l := pc].Keys == s.listeners.Keys;
    s.(listeners := s.listeners[l := pc])
  }

  function AllAtTop(acceptors: set<nat>): (m: map<nat, Listener>)
    ensures m.Keys == acceptors && |m| == |acceptors|
  {
    var m: map<nat, Listener> := map l | l in acceptors :: Top;
    assert m.Keys == acceptors;
    m
  }

  function Without(m: map<nat, Listener>, l: nat): (r: map<nat, Listener>)
    requires l in m
    ensures r.Keys == m.Keys - {l} && |r| == |m| - 1
  {
    assert (m - {l}).Keys == m.Keys - {l};
    m - {l}
  }

  function Stop(s: State): State {
    if s.stopInOperation then s else s.(stopInOperation := true, stopper := Closing)
  }

  function DoStart(s: State, a: StartStep): State
    requires StartEnabled(s, a)
  {
    match a
    case ClaimRunning => s.(running := true, start := Claimed)
    case LockStart => s.(start := Preparing, stopInOperation := false, lastId := 0, asked := {})
    case CreateContext => s.(start := Binding, context := Created)
    case Bind(acceptors) => s.(start := Announcing, listeners := AllAtTop(acceptors), runningCount := |acceptors|)
    case StartThrows =>
      s.(start := NoStart, context := NoContext, listeners := map[], runningCount := 0, running := false,
         startFailed := true)
    case RunContext => s.(start := Unlocking, context := Running)
    case UnlockStart => s.(start := NoStart, startFailed := false)
  }

  function DoMove(s: State, l: nat, move: Move): State
    requires MoveEnabled(s, l, move)
  {
    match move
    case LoadStop => Go(s, l, if s.stopInOperation then Leaving else Accepting)
    case AcceptOk => Go(s, l, Accepted)
    case AcceptRetry => Go(s, l, Top)
    case AcceptFatal => Go(s, l, Failing)
    case LoadStopAgain => Go(s, l, if s.stopInOperation then Top else Creating)
    case TakeId => Go(s, l, Numbered(s.lastId)).(lastId := s.lastId + 1)
    case Reject => Go(s, l, Top)
    case SetupFails => Go(s, l, Top)
    case CountSession =>
      var id := s.listeners[l].id;
      Go(s, l, Counted(id)).(active := s.active + 1, open := s.open + {id})
    case EnterSession => Go(s, l, Top).(mapped := s.mapped + {s.listeners[l].id})
    case EnterFails => Go(s, l, Top).(asked := s.asked + {s.listeners[l].id})
    case ListenerStops => Go(Stop(s), l, Leaving)
    case Leave => s.(listeners := Without(s.listeners, l), runningCount := s.runningCount - 1)
  }

  function DoStopper(s: State, p: StopperStep): State
    requires StopperEnabled(s, p)
  {
    match p
    case CloseAcceptors => s.(stopper := Looking)
    case LookAtContext =>
      if s.context.Running? then s.(stopper := AwaitingListeners)
      else s.(stopper := Disconnecting, runningCount := 0)
    case ListenersGone => s.(stopper := Disconnecting)
    case DisconnectAll => s.(stopper := AwaitingSessions, asked := s.asked + s.mapped)
    case SessionsGone => s.(stopper := StoppingContext)
    case StopContext =>
      if s.context.NoContext? then s.(stopper := Publishing)
      else s.(stopper := AwaitingContext, context := if s.context.Running? then Stopped else s.context)
    case ContextGone => s.(stopper := Publishing)
    case PublishStopped => s.(stopper := NoStopper, running := false)
  }

  function Do(s: State, step: Step): State
    requires Enabled(s, step)
  {
    match step
    case Starting(a) => DoStart(s, a)
    case RequestStop => Stop(s)
    case Listening(l, move) => DoMove(s, l, move)
    case EraseSession(id) => s.(mapped := s.mapped - {id}, erased := s.erased + {id})
    case ReleaseSession(id) => s.(active := s.active - 1, open := s.open - {id}, erased := s.erased - {id})
    case Drain => s.(context := Stopped)
    case Stopping(p) => DoStopper(s, p)
  }

  // ---- the invariant

  predicate PastListeners(p: Stopper) {
    p.Disconnecting? || p.AwaitingSessions? || p.StoppingContext? || p.AwaitingContext? || p.Publishing?
  }

  predicate PastBothWaits(p: Stopper) { p.StoppingContext? || p.AwaitingContext? || p.Publishing? }

  /** No live listener and no session. */
  predicate Quiet(s: State) {
    s.listeners == map[] && s.runningCount == 0 && s.open == {} && s.mapped == {} && s.active == 0
  }

  predicate Counts(s: State) {
    && s.active == |s.open|
    && s.erased <= s.open && s.mapped <= s.open && s.mapped * s.erased == {}
    && s.runningCount == |s.listeners|
  }

  predicate HasId(pc: Listener) { pc.Numbered? || pc.Counted? }

  predicate Ids(s: State) { Taken(s) && Claims(s) }

  /** Ids in use were handed out, and the next connection's id is not in use. */
  predicate Taken(s: State) {
    && (forall id :: id in s.open ==> id < s.lastId)
    && (forall l | l in s.listeners && s.listeners[l].Numbered?
          :: s.listeners[l].id < s.lastId && s.listeners[l].id !in s.open)
  }

  predicate Claims(s: State) {
    forall l :: l in s.listeners && s.listeners[l].Counted? ==> InProgress(s, s.listeners[l].id)
  }

  /** A session counted but not yet entered in the map. */
  predicate InProgress(s: State, id: Id) { id in s.open && id !in s.mapped && id !in s.erased }

  predicate DistinctIds(s: State) {
    forall l, k | l in s.listeners && k in s.listeners && HasId(s.listeners[l]) && HasId(s.listeners[k])
      :: s.listeners[l].id == s.listeners[k].id ==> l == k
  }

  predicate Phases(s: State) {
    && (!s.running ==> s.start.NoStart? && !s.context.Running? && (s.stopper.NoStopper? || s.context.NoContext?))
    && (!s.stopper.NoStopper? ==> s.stopInOperation && s.start.NoStart?)
    && (!s.stopper.NoStopper? && s.context.NoContext? ==> !s.running)
    && (!s.stopper.NoStopper? && !s.context.NoContext? ==> s.running && (s.context.Running? || s.context.Stopped?))
    && (s.context.Created? ==> s.start.Binding? || s.start.Announcing?)
    && (s.start.Claimed? || s.start.Preparing? ==> !s.context.Running?)
    && (s.start.Binding? || s.start.Announcing? ==> s.context.Created?)
    && (s.start.Unlocking? ==> s.context.Running?)
    && (s.start.Preparing? || s.start.Binding? || s.start.Announcing? || s.start.Unlocking? ==> !s.stopInOperation)
    && (s.running && s.start.NoStart? ==> s.context.Running? || s.context.Stopped?)
    && (s.running && s.start.NoStart? && s.stopInOperation ==> !s.stopper.NoStopper?)
    && (s.context.NoContext? && !s.stopInOperation && MutexFree(s) ==> s.startFailed)
    && (s.context.Stopped? && !s.stopInOperation ==> s.start.Preparing?)
    && (s.stopper.AwaitingContext? || s.stopper.Publishing? ==> s.context.Stopped? || s.context.NoContext?)
  }

  /** Only a stop empties a running server of listeners. */
  predicate Listened(s: State) {
    && (s.start.Announcing? || (s.context.Running? && !s.stopInOperation) ==> s.listeners != map[])
    && (!s.stopInOperation ==> forall l :: l in s.listeners ==> !s.listeners[l].Leaving?)
  }

  predicate Quiescence(s: State) {
    && (s.context.NoContext? || s.context.Stopped? ==> Quiet(s))
    && (s.context.Created? ==> s.open == {} && (s.start.Binding? ==> s.listeners == map[]))
    && (PastListeners(s.stopper) ==> s.listeners == map[])
    && (PastBothWaits(s.stopper) ==> Quiet(s))
  }

  /** The wait for sessions never waits for one that nobody told to stop. */
  predicate Asked(s: State) {
    && (forall id :: id in s.open && id !in s.erased && id !in s.mapped && id !in s.asked ==> BeingCounted(s, id))
    && (s.stopper.AwaitingSessions? ==> s.open - s.erased <= s.asked)
  }

  predicate Inv(s: State) { Counts(s) && Ids(s) && DistinctIds(s) && Phases(s) && Listened(s) && Quiescence(s) && Asked(s) }

  /** A stop request that finds no context: possible only after a start that threw. */
  predicate Orphaned(s: State, step: Step) { step.RequestStop? && !s.stopInOperation && s.context.NoContext? }

  /** A stopping thread with no context to stop. */
  predicate Lone(s: State) { !s.stopper.NoStopper? && s.context.NoContext? }

  /** A start overlaps such a thread. */
  predicate Collides(s: State, step: Step) {
    (Orphaned(s, step) && s.start.Claimed?) || (step == Starting(ClaimRunning) && Lone(s))
  }

  lemma InitHolds()
    ensures Inv(Init())
  {}

  /** What is empty while a start is under way, once the listeners are gone, or without a running context. */
  lemma Rest(s: State)
    requires Inv(s)
    ensures !s.start.NoStart? && !s.start.Unlocking? ==> s.open == {} && s.mapped == {} && s.erased == {} && s.active == 0
    ensures s.start.Claimed? || s.start.Preparing? || s.start.Binding? ==> s.listeners == map[] && s.runningCount == 0
    ensures PastListeners(s.stopper) || (s.stopper.Looking? && !s.context.Running?) ==>
      (s.listeners == map[] && s.runningCount == 0)
  {
    hide Ids, DistinctIds, Asked, Listened;
  }

  predicate Data(s: State) { Counts(s) && Taken(s) && Claims(s) && DistinctIds(s) && Asked(s) }

  predicate Control(s: State) { Phases(s) && Listened(s) && Quiescence(s) }

  /** What the invariants say of listeners and sessions depends on nothing else. */
  lemma DataFrame(s: State, t: State)
    requires Data(s) && s.asked <= t.asked && (t.stopper.AwaitingSessions? ==> t.open - t.erased <= t.asked)
    requires t == s.(running := t.running, stopInOperation := t.stopInOperation, start := t.start, context := t.context,
                     stopper := t.stopper, startFailed := t.startFailed, asked := t.asked)
    ensures Data(t)
  {
    assert forall id :: BeingCounted(s, id) ==> BeingCounted(t, id);
  }

  lemma NewData(t: State)
    requires t.open == {} && t.mapped == {} && t.erased == {} && t.active == 0 && t.runningCount == |t.listeners|
    requires t.stopper.NoStopper? && forall l :: l in t.listeners ==> t.listeners[l].Top?
    ensures Data(t)
  {}

  lemma StartKeepsData(s: State, a: StartStep)
    requires Inv(s) && StartEnabled(s, a)
    ensures Data(DoStart(s, a))
  {
    hide Counts, Taken, Claims, DistinctIds, Asked, Listened, Quiescence;
    Rest(s);
    match a
    case LockStart => NewData(DoStart(s, a));
    case Bind(_) => NewData(DoStart(s, a));
    case StartThrows => NewData(DoStart(s, a));
    case _ => ReachedData(s); DataFrame(s, DoStart(s, a));
  }

  lemma ReachedData(s: State)
    requires Inv(s)
    ensures Data(s)
    ensures s.stopper.AwaitingSessions? ==> s.open - s.erased <= s.asked
  {
    hide Phases, Listened, Quiescence;
  }

  lemma StartKeepsControl(s: State, a: StartStep)
    requires Inv(s) && StartEnabled(s, a) && !(a.ClaimRunning? && Lone(s))
    ensures Control(DoStart(s, a))
  {
    hide Taken, Claims, DistinctIds, Asked;
  }

  lemma StopperKeepsData(s: State, p: StopperStep)
    requires Inv(s) && StopperEnabled(s, p)
    ensures Data(DoStopper(s, p))
  {
    hide Data, Counts, Taken, Claims, DistinctIds, Asked, Phases, Listened, Quiescence, DoStopper, StopperEnabled;
    Rest(s);
    ReachedData(s);
    StopperFrame(s, p);
    if p.DisconnectAll? {
      DisconnectAsks(s);
    }
    DataFrame(s, DoStopper(s, p));
  }

  lemma StopperFrame(s: State, p: StopperStep)
    requires StopperEnabled(s, p) && (s.stopper.Looking? && !s.context.Running? ==> s.runningCount == 0)
    ensures var t := DoStopper(s, p);
      && t == s.(running := t.running, context := t.context, stopper := t.stopper, asked := t.asked)
      && (t.asked == if p.DisconnectAll? then s.asked + s.mapped else s.asked)
      && (t.stopper.AwaitingSessions? ==> p.DisconnectAll?)
      && (p.DisconnectAll? ==> PastListeners(s.stopper))
  {}

  lemma DisconnectAsks(s: State)
    requires Asked(s) && s.listeners == map[]
    ensures s.open - s.erased <= s.asked + s.mapped
  {}

  lemma StopperKeepsPhases(s: State, p: StopperStep)
    requires Inv(s) && StopperEnabled(s, p)
    ensures Phases(DoStopper(s, p)) && Listened(DoStopper(s, p))
  {
    hide Taken, Claims, DistinctIds, Asked, Counts;
  }

  lemma StopperKeepsQuiescence(s: State, p: StopperStep)
    requires Inv(s) && StopperEnabled(s, p)
    ensures Quiescence(DoStopper(s, p))
  {
    hide Taken, Claims, DistinctIds, Asked, Listened;
  }

  lemma RequestKeeps(s: State)
    requires Inv(s) && CanStop(s) && !Collides(s, RequestStop)
    ensures Inv(Stop(s))
  {
    assert forall id :: BeingCounted(s, id) ==> BeingCounted(Stop(s), id);
  }

  lemma DrainKeeps(s: State)
    requires Inv(s) && Enabled(s, Drain)
    ensures Inv(Do(s, Drain))
  {}

  lemma SessionKeeps(s: State, step: Step)
    requires Inv(s) && Enabled(s, step) && (step.EraseSession? || step.ReleaseSession?)
    ensures Inv(Do(s, step))
  {
    assert forall id :: BeingCounted(s, id) ==> BeingCounted(Do(s, step), id);
  }

  lemma MoveKeepsCounts(s: State, l: nat, move: Move)
    requires Inv(s) && MoveEnabled(s, l, move)
    ensures Counts(DoMove(s, l, move))
  {
    hide DistinctIds, Asked, Phases, Listened, Quiescence;
  }

  lemma MoveKeepsTaken(s: State, l: nat, move: Move)
    requires Inv(s) && MoveEnabled(s, l, move)
    ensures Taken(DoMove(s, l, move))
  {
    hide Counts, Claims, Asked, Phases, Listened, Quiescence;
    var t := DoMove(s, l, move);
    forall k | k in t.listeners && t.listeners[k].Numbered?
      ensures t.listeners[k].id < t.lastId && t.listeners[k].id !in t.open
    {
      if k != l {
        assert k in s.listeners && s.listeners[k] == t.listeners[k];
      }
    }
  }

  lemma MoveKeepsClaims(s: State, l: nat, move: Move)
    requires Inv(s) && MoveEnabled(s, l, move)
    ensures Claims(DoMove(s, l, move))
  {
    hide Asked, Phases, Listened, Quiescence;
    var t := DoMove(s, l, move);
    forall k | k in t.listeners && t.listeners[k].Counted? ensures InProgress(t, t.listeners[k].id) {
      if k != l {
        assert k in s.listeners && s.listeners[k] == t.listeners[k];
        assert InProgress(s, s.listeners[k].id);
      }
    }
  }

  lemma MoveKeepsDistinctIds(s: State, l: nat, move: Move)
    requires Inv(s) && MoveEnabled(s, l, move)
    ensures DistinctIds(DoMove(s, l, move))
  {
    hide Counts, Asked, Phases, Listened, Quiescence;
    var t := DoMove(s, l, move);
    forall j, k | j in t.listeners && k in t.listeners && HasId(t.listeners[j]) && HasId(t.listeners[k])
      && t.listeners[j].id == t.listeners[k].id
      ensures j == k
    {
      assert j != l ==> s.listeners[j] == t.listeners[j];
      assert k != l ==> s.listeners[k] == t.listeners[k];
    }
  }

  lemma MoveKeepsAsked(s: State, l: nat, move: Move)
    requires Inv(s) && MoveEnabled(s, l, move)
    ensures Asked(DoMove(s, l, move))
  {
    hide Counts, Taken, Claims, DistinctIds, Phases, Listened, Quiescence, DoMove;
    MoveCounts(s, l, move);
    assert !DoMove(s, l, move).stopper.AwaitingSessions? by {
      Rest(s);
      MoveKeepsStopper(s, l, move);
    }
  }

  lemma MoveKeepsStopper(s: State, l: nat, move: Move)
    requires MoveEnabled(s, l, move) && !s.stopper.AwaitingSessions?
    ensures !DoMove(s, l, move).stopper.AwaitingSessions?
  {}

  /** A session that nobody has told to stop is in the map, or on its way there. */
  lemma MoveCounts(s: State, l: nat, move: Move)
    requires Inv(s) && MoveEnabled(s, l, move)
    ensures var t := DoMove(s, l, move);
      forall id :: id in t.open && id !in t.erased && id !in t.mapped && id !in t.asked ==> BeingCounted(t, id)
  {
    hide Counts, Taken, DistinctIds, Phases, Listened, Quiescence;
    var t := DoMove(s, l, move);
    forall id | id in t.open && id !in t.erased && id !in t.mapped && id !in t.asked ensures BeingCounted(t, id) {
      if id in s.open {
        var k :| k in s.listeners && s.listeners[k] == Counted(id);
        assert k in t.listeners && t.listeners[k] == Counted(id);
      } else {
        assert t.listeners[l] == Counted(id);
      }
    }
  }

  lemma MoveKeepsPhases(s: State, l: nat, move: Move)
    requires Inv(s) && MoveEnabled(s, l, move)
    ensures Phases(DoMove(s, l, move))
  {
    hide Counts, Taken, Claims, DistinctIds, Asked, Quiescence;
  }

  lemma MoveKeepsListened(s: State, l: nat, move: Move)
    requires Inv(s) && MoveEnabled(s, l, move)
    ensures Listened(DoMove(s, l, move))
  {
    hide Counts, Taken, Claims, DistinctIds, Asked, Quiescence;
  }

  lemma MoveKeepsQuiescence(s: State, l: nat, move: Move)
    requires Inv(s) && MoveEnabled(s, l, move)
    ensures Quiescence(DoMove(s, l, move))
  {
    hide Counts, Taken, Claims, DistinctIds, Asked;
  }

  lemma StepKeeps(s: State, step: Step)
    requires Inv(s) && Enabled(s, step) && !Collides(s, step)
    ensures Inv(Do(s, step))
  {
    hide StartEnabled, MoveEnabled, StopperEnabled, DoStart, DoMove, DoStopper, Counts, Taken, Claims, DistinctIds, Asked,
      Phases, Listened, Quiescence;
    match step
    case Starting(a) =>
      StartKeepsData(s, a);
      StartKeepsControl(s, a);
    case RequestStop => RequestKeeps(s);
    case Listening(l, move) =>
      MoveKeepsCounts(s, l, move);
      MoveKeepsTaken(s, l, move);
      MoveKeepsClaims(s, l, move);
      MoveKeepsDistinctIds(s, l, move);
      MoveKeepsAsked(s, l, move);
      MoveKeepsPhases(s, l, move);
      MoveKeepsListened(s, l, move);
      MoveKeepsQuiescence(s, l, move);
    case Drain => DrainKeeps(s);
    case Stopping(p) =>
      StopperKeepsData(s, p);
      StopperKeepsPhases(s, p);
      StopperKeepsQuiescence(s, p);
    case _ => SessionKeeps(s, step);
  }

  // ---- runs

  predicate Path(s: State, steps: seq<Step>)
    decreases |steps|, 0
  {
    steps == [] ||
    (Path(s, steps[..|steps| - 1]) && Enabled(End(s, steps[..|steps| - 1]), steps[|steps| - 1]))
  }

  function End(s: State, steps: seq<Step>): State
    requires Path(s, steps)
    decreases |steps|, 1
  {
    if steps == [] then s else Do(End(s, steps[..|steps| - 1]), steps[|steps| - 1])
  }

  /** A run in which no start overlaps a stopping thread that has no context. */
  predicate Tame(s: State, steps: seq<Step>)
    requires Path(s, steps)
    decreases |steps|
  {
    steps == [] ||
    (Tame(s, steps[..|steps| - 1]) && !Collides(End(s, steps[..|steps| - 1]), steps[|steps| - 1]))
  }

  lemma {:induction false} RunKeeps(s: State, steps: seq<Step>)
    requires Inv(s) && Path(s, steps) && Tame(s, steps)
    ensures Inv(End(s, steps))
    decreases |steps|
  {
    hide Enabled, Do, Inv, Collides;
    if steps == [] {
    } else {
      RunKeeps(s, steps[..|steps| - 1]);
      StepKeeps(End(s, steps[..|steps| - 1]), steps[|steps| - 1]);
    }
  }

  /** `m_active_sessions` counts the sessions registered and not yet released; a start, and the end of a stop,
      find neither listener nor session; a stop waits only for sessions that were told to stop. */
  lemma ServerQuiesces(steps: seq<Step>)
    requires Path(Init(), steps) && Tame(Init(), steps)
    ensures var s := End(Init(), steps);
      && s.active == |s.open| && s.runningCount == |s.listeners|
      && s.mapped <= s.open - s.erased && |s.mapped| <= s.active
      && (PastBothWaits(s.stopper) || !s.running || s.start.Claimed? ==> Quiet(s))
      && (s.stopper.AwaitingSessions? ==> s.listeners == map[] && s.open - s.erased <= s.asked)
      && (!s.stopper.NoStopper? ==> s.start.NoStart? && (s.running <==> !s.context.NoContext?))
  {
    hide Path, End, Tame;
    InitHolds();
    RunKeeps(Init(), steps);
    var s := End(Init(), steps);
    SubsetCardinality(s.mapped, s.open);
    forall id | id in s.mapped ensures id !in s.erased {
      assert id in s.erased ==> id in s.mapped * s.erased;
    }
  }

  lemma {:induction false} SubsetCardinality(a: set<Id>, b: set<Id>)
    requires a <= b
    ensures |a| <= |b|
  {
    if a == {} {
    } else {
      var x :| x in a;
      SubsetCardinality(a - {x}, b - {x});
    }
  }

  lemma StaysQuiet(s: State, step: Step)
    requires Inv(s) && PastBothWaits(s.stopper) && s.running && Enabled(s, step) && step != Stopping(PublishStopped)
    ensures Inv(Do(s, step)) && PastBothWaits(Do(s, step).stopper) && Do(s, step).running
  {
    hide Counts, Taken, Claims, DistinctIds, Asked, Listened;
    StepKeeps(s, step);
  }

  /** Once past both waits the server stays empty, and `m_running` set, until the stopping thread clears it. */
  lemma {:induction false} QuietUntilPublished(s: State, steps: seq<Step>)
    requires Inv(s) && PastBothWaits(s.stopper) && s.running && Path(s, steps)
    requires forall i :: 0 <= i < |steps| ==> steps[i] != Stopping(PublishStopped)
    ensures var t := End(s, steps); Inv(t) && PastBothWaits(t.stopper) && Quiet(t) && t.running
    decreases |steps|
  {
    hide Enabled, Do, Counts, Taken, Claims, DistinctIds, Asked, Listened;
    if steps == [] {
    } else {
      QuietUntilPublished(s, steps[..|steps| - 1]);
      StaysQuiet(End(s, steps[..|steps| - 1]), steps[|steps| - 1]);
    }
  }

  // ---- the orphaned stop

  /** A stop is orphaned only when the last start threw. */
  lemma OrphanFollowsFailedStart(steps: seq<Step>, step: Step)
    requires Path(Init(), steps) && Tame(Init(), steps)
    requires var s := End(Init(), steps); Enabled(s, step) && Orphaned(s, step)
    ensures End(Init(), steps).startFailed
  {
    hide Path, End, Tame;
    InitHolds();
    RunKeeps(Init(), steps);
  }

  /** A server that reports itself stopped is empty. */
  predicate Truthful(s: State) { !s.running ==> Quiet(s) }

  /** A run with no further orphaned stop. */
  predicate OrphanFree(s: State, steps: seq<Step>)
    requires Path(s, steps)
    decreases |steps|
  {
    steps == [] ||
    (OrphanFree(s, steps[..|steps| - 1]) && !Orphaned(End(s, steps[..|steps| - 1]), steps[|steps| - 1]))
  }

  lemma StepStaysOrphanFree(s: State, step: Step)
    requires Inv(s) && !Lone(s) && Enabled(s, step) && !Orphaned(s, step)
    ensures !Lone(Do(s, step))
  {
    hide Counts, Taken, Claims, DistinctIds, Asked, Phases, Listened, Quiescence, DoStart, DoMove, DoStopper, StartEnabled,
      MoveEnabled, StopperEnabled;
    match step
    case Starting(a) => StartNotLone(s, a);
    case Listening(l, move) => MoveNotLone(s, l, move);
    case Stopping(p) => StopperNotLone(s, p);
    case _ =>
  }

  lemma StartNotLone(s: State, a: StartStep)
    requires Phases(s) && !Lone(s) && StartEnabled(s, a)
    ensures !Lone(DoStart(s, a))
  {}

  lemma MoveNotLone(s: State, l: nat, move: Move)
    requires MoveEnabled(s, l, move)
    ensures !Lone(DoMove(s, l, move))
  {}

  lemma StopperNotLone(s: State, p: StopperStep)
    requires !Lone(s) && StopperEnabled(s, p)
    ensures !Lone(DoStopper(s, p))
  {}

  /** Without an orphaned stop no start overlaps a lone stopping thread. */
  lemma {:induction false} OrphanFreeKeeps(s: State, steps: seq<Step>)
    requires Inv(s) && !Lone(s) && Path(s, steps) && OrphanFree(s, steps)
    ensures Inv(End(s, steps)) && !Lone(End(s, steps))
    decreases |steps|
  {
    hide Inv, Lone, Enabled, Do, Orphaned;
    if steps == [] {
    } else {
      var front, last := steps[..|steps| - 1], steps[|steps| - 1];
      OrphanFreeKeeps(s, front);
      StepKeeps(End(s, front), last);
      StepStaysOrphanFree(End(s, front), last);
    }
  }

  lemma {:induction false} Extend(s: State, steps: seq<Step>, step: Step) returns (longer: seq<Step>)
    requires Path(s, steps) && OrphanFree(s, steps) && Enabled(End(s, steps), step) && !Orphaned(End(s, steps), step)
    ensures Path(s, longer) && OrphanFree(s, longer) && End(s, longer) == Do(End(s, steps), step)
  {
    hide Enabled, Do, Orphaned;
    longer := steps + [step];
    assert longer[..|longer| - 1] == steps;
  }

  lemma NoSteps(s: State)
    ensures Path(s, []) && OrphanFree(s, []) && End(s, []) == s
  {}

  /** A stopping thread on its way, with no context, session or listener, and no start holding the mutex. */
  predicate LoneThread(s: State) {
    !s.stopper.NoStopper? && s.stopInOperation && s.context.NoContext? && s.active == 0 && s.runningCount == 0 &&
    (s.start.Claimed? || (s.start.NoStart? && !s.running))
  }

  function NextStop(p: Stopper): StopperStep {
    match p
    case Closing => CloseAcceptors
    case Looking => LookAtContext
    case AwaitingListeners => ListenersGone
    case Disconnecting => DisconnectAll
    case AwaitingSessions => SessionsGone
    case StoppingContext => StopContext
    case AwaitingContext => ContextGone
    case _ => PublishStopped
  }

  function ToGo(p: Stopper): nat {
    match p
    case Closing => 7
    case Looking => 6
    case AwaitingListeners => 5
    case Disconnecting => 4
    case AwaitingSessions => 3
    case StoppingContext => 2
    case AwaitingContext => 1
    case _ => 0
  }

  lemma ThreadStep(s: State)
    requires LoneThread(s) && !s.stopper.Publishing?
    ensures var step := Stopping(NextStop(s.stopper));
      && Enabled(s, step) && LoneThread(Do(s, step)) && ToGo(Do(s, step).stopper) < ToGo(s.stopper)
  {
    hide StartEnabled, MoveEnabled, DoStart, DoMove;
  }

  /** Nothing holds a lone thread up. */
  lemma ThreadRuns(s: State) returns (steps: seq<Step>)
    requires LoneThread(s)
    ensures Path(s, steps) && OrphanFree(s, steps)
    ensures LoneThread(End(s, steps)) && End(s, steps).stopper.Publishing?
  {
    hide Path, End, OrphanFree, Enabled, Do, LoneThread;
    NoSteps(s);
    steps := [];
    while !End(s, steps).stopper.Publishing?
      invariant Path(s, steps) && OrphanFree(s, steps) && LoneThread(End(s, steps))
      decreases ToGo(End(s, steps).stopper)
    {
      ThreadStep(End(s, steps));
      steps := Extend(s, steps, Stopping(NextStop(End(s, steps).stopper)));
    }
  }

  lemma StartSteps(s: State)
    requires s.stopper.Publishing? && s.start.Claimed?
    ensures Enabled(s, Starting(LockStart)) && Do(s, Starting(LockStart)) == Started(s, Preparing, s.context)
    ensures var s1 := Started(s, Preparing, s.context);
      Enabled(s1, Starting(CreateContext)) && Do(s1, Starting(CreateContext)) == Started(s, Binding, Created)
    ensures var s2 := Started(s, Binding, Created);
      Enabled(s2, Starting(Bind({0}))) && Do(s2, Starting(Bind({0}))) == Up(s, Announcing, Created)
  {}

  lemma LaterStartSteps(s: State)
    requires s.stopper.Publishing? && s.start.Claimed?
    ensures var s3 := Up(s, Announcing, Created);
      Enabled(s3, Starting(RunContext)) && Do(s3, Starting(RunContext)) == Up(s, Unlocking, Running)
    ensures var s4 := Up(s, Unlocking, Running);
      Enabled(s4, Starting(UnlockStart)) && Do(s4, Starting(UnlockStart)) == Up(s, NoStart, Running).(startFailed := false)
    ensures var s5 := Up(s, NoStart, Running).(startFailed := false);
      && Enabled(s5, Stopping(PublishStopped))
      && 0 in Do(s5, Stopping(PublishStopped)).listeners && !Do(s5, Stopping(PublishStopped)).running
  {}

  lemma ClaimStep(s: State)
    requires s.start.NoStart? && !s.running
    ensures Enabled(s, Starting(ClaimRunning)) && Do(s, Starting(ClaimRunning)) == s.(running := true, start := Claimed)
  {}

  function Started(s: State, start: Start, context: Context): State {
    s.(start := start, context := context, stopInOperation := false, lastId := 0, asked := {})
  }

  function Up(s: State, start: Start, context: Context): State {
    Started(s, start, context).(listeners := AllAtTop({0}), runningCount := 1)
  }

  /** The next start brings a listener up, and then the lone thread declares the server stopped. */
  lemma ThreadLies(s: State) returns (steps: seq<Step>)
    requires LoneThread(s)
    ensures Path(s, steps) && OrphanFree(s, steps) && !Truthful(End(s, steps))
  {
    hide Path, End, OrphanFree, Enabled, Do;
    steps := ThreadRuns(s);
    if End(s, steps).start.NoStart? {
      ClaimStep(End(s, steps));
      steps := Extend(s, steps, Starting(ClaimRunning));
    }
    StartSteps(End(s, steps));
    LaterStartSteps(End(s, steps));
    steps := Extend(s, steps, Starting(LockStart));
    steps := Extend(s, steps, Starting(CreateContext));
    steps := Extend(s, steps, Starting(Bind({0})));
    steps := Extend(s, steps, Starting(RunContext));
    steps := Extend(s, steps, Starting(UnlockStart));
    steps := Extend(s, steps, Stopping(PublishStopped));
  }

  /** No context, and the call starts a stopping thread or finds one that was started so. */
  predicate StopsNothing(s: State) { s.context.NoContext? && (!s.stopInOperation || !s.stopper.NoStopper?) }

  lemma StopLeavesThread(s: State)
    requires Inv(s) && CanStop(s)
    ensures StopsNothing(s) ==> LoneThread(Stop(s))
    ensures !StopsNothing(s) ==> Inv(Stop(s)) && !Lone(Stop(s))
  {
    hide Taken, Claims, DistinctIds, Asked, Listened, Counts;
    if !StopsNothing(s) {
      RequestKeeps(s);
    }
  }

  /** A stop request is followed, whatever the later run, by a server that calls itself stopped only when it is empty,
      exactly when it has a context to stop or no stopping thread is at work. */
  lemma StopIsSafeIff(s: State)
    requires Inv(s) && CanStop(s)
    ensures !StopsNothing(s) <==>
      forall steps | Path(Stop(s), steps) && OrphanFree(Stop(s), steps) :: Truthful(End(Stop(s), steps))
  {
    hide Path, End, OrphanFree, CanStop, Stop, Counts, Taken, Claims, DistinctIds, Asked, Listened;
    var t := Stop(s);
    StopLeavesThread(s);
    if StopsNothing(s) {
      var steps := ThreadLies(t);
    } else {
      forall steps | Path(t, steps) && OrphanFree(t, steps) ensures Truthful(End(t, steps)) {
        OrphanFreeKeeps(t, steps);
      }
    }
  }

  /** The overlap that `StepKeeps` leaves out is never harmless: a later run reports stopped while it listens. */
  lemma CollisionLies(s: State, step: Step) returns (steps: seq<Step>)
    requires Inv(s) && Enabled(s, step) && Collides(s, step)
    ensures var t := Do(s, step); Path(t, steps) && OrphanFree(t, steps) && !Truthful(End(t, steps))
  {
    hide Path, End, OrphanFree, Taken, Claims, DistinctIds, Asked, Listened, Counts;
    steps := ThreadLies(Do(s, step));
  }

  // ---- a run in which a stop ends the next start

  /** A start that throws leaves a server whose stop would start a thread with nothing to stop. */
  lemma FailedStartRun() returns (steps: seq<Step>)
    ensures Path(Init(), steps) && OrphanFree(Init(), steps)
    ensures var s := End(Init(), steps); Inv(s) && CanStop(s) && StopsNothing(s) && !s.stopInOperation
  {
    hide Path, End, OrphanFree, DoMove, DoStopper, MoveEnabled, StopperEnabled;
    NoSteps(Init());
    steps := Extend(Init(), [], Starting(ClaimRunning));
    steps := Extend(Init(), steps, Starting(LockStart));
    steps := Extend(Init(), steps, Starting(StartThrows));
  }

  lemma {:induction false} Joined(s: State, a: seq<Step>, b: seq<Step>)
    requires Path(s, a) && Path(End(s, a), b)
    ensures Path(s, a + b) && End(s, a + b) == End(End(s, a), b)
    decreases |b|
  {
    hide Enabled, Do;
    if b == [] {
      assert a + b == a;
    } else {
      var front, last := b[..|b| - 1], b[|b| - 1];
      Joined(s, a, front);
      assert (a + b)[..|a + b| - 1] == a + front;
    }
  }

  lemma OneStep(s: State, step: Step)
    requires Enabled(s, step)
    ensures Path(s, [step]) && End(s, [step]) == Do(s, step)
  {
    hide Enabled, Do;
    assert [step][..0] == [];
  }

  /** From the beginning: a start throws, the caller stops the server and starts again, and the second run is reported
      stopped while it listens. */
  lemma StopEndsNextStart() returns (steps: seq<Step>)
    ensures Path(Init(), steps) && !Truthful(End(Init(), steps))
  {
    hide Path, End, OrphanFree, Inv, StopsNothing, CanStop, Truthful, LoneThread, Stop;
    var failed := FailedStartRun();
    var s := End(Init(), failed);
    StopLeavesThread(s);
    OneStep(s, RequestStop);
    Joined(Init(), failed, [RequestStop]);
    var tail := ThreadLies(Stop(s));
    Joined(Init(), failed + [RequestStop], tail);
    steps := failed + [RequestStop] + tail;
  }
}
