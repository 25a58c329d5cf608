/** The variables of a TCP session and what each of its critical sections does to them. */
module SessionVars {

  newtype Byte = b: int | 0 <= b < 256

  type Message = seq<Byte>

  /** `m_state`. A session is `Stopped` both before `start` and at the end. */
  datatype Phase = Stopped | Running | StopRequested | Stopping

  datatype Vars = Vars(
    mark: nat,                // write_high_water_mark, 0 for unlimited
    phase: Phase,
    startCalled: bool,
    owed: bool,               // m_disconnection_callback_owed
    scheduled: bool,          // m_write_scheduled
    queue: seq<Message>,      // m_write_msgs
    queuedBytes: int,
    writingBytes: nat)

  function Total(ms: seq<Message>): nat {
    if ms == [] then 0 else Total(ms[..|ms| - 1]) + |ms[|ms| - 1]|
  }

  datatype WriteOutcome = Refused | Full | Queued(needSpawn: bool)

  /** `write` under the write mutex. */
  function WriteRegion(v: Vars, msg: Message): (Vars, WriteOutcome) {
    if !v.phase.Running? then (v, Refused)
    else if v.mark != 0 && v.queuedBytes + v.writingBytes >= v.mark then (v, Full)
    else (v.(queue := v.queue + [msg], queuedBytes := v.queuedBytes + |msg|, scheduled := true), Queued(!v.scheduled))
  }

  datatype StopOutcome = Ignored | Requested(shouldClose: bool)

  /** `stop_async` under the write mutex. */
  function StopRegion(v: Vars): (Vars, StopOutcome) {
    if !v.phase.Running? then (v, Ignored)
    else (v.(phase := StopRequested), Requested(!v.scheduled))
  }

  /** A compare-exchange on `m_state`: whether it won, and the phase found there. */
  function Exchange(v: Vars, expected: Phase, desired: Phase): (Vars, bool, Phase) {
    (if v.phase == expected then v.(phase := desired) else v, v.phase == expected, v.phase)
  }

  /** One round of `writer` under the write mutex: the whole queue becomes the batch. */
  function WriterRegion(v: Vars): (Vars, seq<Message>) {
    (v.(queue := [], scheduled := v.queue != [] && v.scheduled,
        queuedBytes := v.queuedBytes - Total(v.queue), writingBytes := Total(v.queue)), v.queue)
  }

  /** The session object; each method is one critical section or one atomic exchange. */
  class TcpSession {
    const mark: nat
    var phase: Phase
    var startCalled: bool
    var owed: bool
    var scheduled: bool
    var queue: seq<Message>
    var queuedBytes: int
    var writingBytes: nat

    function View(): Vars
      reads this
    {
      Vars(mark, phase, startCalled, owed, scheduled, queue, queuedBytes, writingBytes)
    }

    constructor (mark: nat)
      ensures View() == Vars(mark, Stopped, false, false, false, [], 0, 0)
    {
      this.mark := mark;
      phase, startCalled, owed, scheduled := Stopped, false, false, false;
      queue, queuedBytes, writingBytes := [], 0, 0;
    }

    method Write(msg: Message) returns (outcome: WriteOutcome)
      modifies this
      ensures (View(), outcome) == WriteRegion(old(View()), msg)
      ensures outcome.Refused? <==> !old(phase).Running?
      ensures outcome.Full? <==> old(phase).Running? && mark > 0 && old(queuedBytes + writingBytes) >= mark
      ensures queue == old(queue) + (if outcome.Queued? then [msg] else [])
      ensures outcome.Queued? ==> scheduled && (outcome.needSpawn <==> !old(scheduled))
    {
      if phase != Running {
        return Refused;
      }
      if mark != 0 && queuedBytes + writingBytes >= mark {
        return Full;
      }
      queuedBytes := queuedBytes + |msg|;
      queue := queue + [msg];
      var needSpawn := !scheduled;
      scheduled := true;
      outcome := Queued(needSpawn);
    }

    method StopAsync() returns (outcome: StopOutcome)
      modifies this
      ensures (View(), outcome) == StopRegion(old(View()))
      ensures outcome.Requested? <==> old(phase).Running?
      ensures outcome.Requested? ==> phase == StopRequested && (outcome.shouldClose <==> !old(scheduled))
    {
      var won, _ := CompareExchange(Running, StopRequested);
      if !won {
        return Ignored;
      }
      outcome := Requested(!scheduled);
    }

    method CompareExchange(expected: Phase, desired: Phase) returns (won: bool, seen: Phase)
      modifies this`phase
      ensures (View(), won, seen) == Exchange(old(View()), expected, desired)
    {
      seen := phase;
      won := phase == expected;
      if won {
        phase := desired;
      }
    }

    method WriterRound() returns (buffers: seq<Message>)
      modifies this
      ensures (View(), buffers) == WriterRegion(old(View()))
      ensures buffers == old(queue) && queue == [] && (scheduled <==> old(scheduled) && buffers != [])
    {
      buffers := queue;
      queue := [];
      if buffers == [] {
        scheduled := false;
      }
      var batch := 0;
      for i := 0 to |buffers|
        invariant batch == Total(buffers[..i])
      {
        assert buffers[..i + 1][..i] == buffers[..i];
        batch := batch + |buffers[i]|;
      }
      assert buffers[..|buffers|] == buffers;
      queuedBytes := queuedBytes - batch;
      writingBytes := batch;
    }
  }
}

/** Every interleaving of the threads, coroutines and handlers of one session. */
module SessionProtocol {
  import opened SessionVars

  datatype Option<T> = None | Some(value: T)

  type Tid = nat

  /** Where a thread, coroutine or queued handler stands between two atomic steps. */
  datatype Pc =
    | Begin                    // start: flag taken, before the compare-exchange
    | Setup                    // start: before the callback is owed
    | Connected                // start: in onConnected, before the reader is spawned
    | StartFailed              // start: in the catch block
    | Spawning                 // write: lock released, the writer not yet spawned
    | WriterReady              // writer: before a critical section
    | WriterEmpty(seen: nat)   // writer: found the queue empty after `seen` accepted messages, before its load
    | Writing(batch: seq<Message>)
    | Reading
    | CloseLoad                // close: before the first load
    | CloseCas(expected: Phase)
    | TearDown                 // close_impl dispatched
    | TornDown                 // close_impl: callbacks done, before the final store
    | Finished

  datatype State = State(
    v: Vars,
    threads: map<Tid, Pc>,
    strand: Option<Tid>,       // who is executing on m_strand
    socketOpen: bool,
    batchOpen: bool,           // the batch was passed to an open socket
    // history
    accepted: seq<Message>,    // queued by write, in lock order
    sent: seq<Message>,        // handed over by completed writes
    batch: seq<Message>,       // taken by the last critical section
    batchDone: bool,
    failed: bool,              // a batch was not written
    owner: Option<Tid>,        // who holds the right to write
    starter: Option<Tid>,
    everRan: bool,
    closer: Option<Tid>,       // who won the transition to Stopping
    debtor: Tid,               // who owed a close when the stop was requested
    teardowns: nat,
    owedAtTeardown: bool,
    disconnects: nat,
    batchStarts: nat,          // since the stop request
    batchFinishes: nat)

  function Init(mark: nat): State {
    State(Vars(mark, Stopped, false, false, false, [], 0, 0), map[], None, true, false, [], [], [], true, false,
          None, None, false, None, 0, 0, false, 0, 0, 0)
  }

  datatype StartStep = StartFlag | StartCas | SetupFails | StoreOwed | CallbackFails | SpawnReader(reader: Tid)

  datatype WriterStep = SpawnWriter | TakeBatch | LoadAfterEmpty | BatchWritten | BatchFails

  datatype CloseStep = LoadForClose | CasForClose(spurious: bool) | RunTearDown | StoreStopped

  datatype CallStep = Write(msg: Message) | Stop | ForceStop | ReaderEnds

  datatype Step =
    | ByStarter(t: Tid, a: StartStep)
    | ByWriter(t: Tid, w: WriterStep)
    | ByCloser(t: Tid, c: CloseStep)
    | ByCaller(t: Tid, k: CallStep)

  predicate At(s: State, t: Tid, pc: Pc) { t in s.threads && s.threads[t] == pc }

  predicate Fresh(s: State, t: Tid) { t !in s.threads }

  /** The strand is free, or `t` is already executing on it. */
  predicate StrandFor(s: State, t: Tid) { s.strand.None? || s.strand == Some(t) }

  predicate StartEnabled(s: State, t: Tid, a: StartStep) {
    match a
    case StartFlag => Fresh(s, t)
    case StartCas => At(s, t, Begin)
    case SetupFails => At(s, t, Setup)
    case StoreOwed => At(s, t, Setup)
    case CallbackFails => At(s, t, Connected)
    case SpawnReader(r) => At(s, t, Connected) && Fresh(s, r)
  }

  predicate WriterEnabled(s: State, t: Tid, w: WriterStep) {
    match w
    case SpawnWriter => At(s, t, Spawning)
    case TakeBatch => At(s, t, WriterReady) && StrandFor(s, t)
    case LoadAfterEmpty => t in s.threads && s.threads[t].WriterEmpty?
    case BatchWritten => t in s.threads && s.threads[t].Writing? && s.strand.None? && s.batchOpen
    case BatchFails => t in s.threads && s.threads[t].Writing? && s.strand.None?
  }

  predicate CloseEnabled(s: State, t: Tid, c: CloseStep) {
    match c
    case LoadForClose => At(s, t, CloseLoad)
    case CasForClose(_) => t in s.threads && s.threads[t].CloseCas?
    case RunTearDown => At(s, t, TearDown) && StrandFor(s, t)
    case StoreStopped => At(s, t, TornDown)
  }

  predicate CallEnabled(s: State, t: Tid, k: CallStep) {
    match k
    case Write(_) => Fresh(s, t)
    case Stop => Fresh(s, t) || At(s, t, StartFailed)
    case ForceStop => Fresh(s, t)
    case ReaderEnds => At(s, t, Reading) && s.strand.None?
  }

  predicate Enabled(s: State, step: Step) {
    match step
    case ByStarter(t, a) => StartEnabled(s, t, a)
    case ByWriter(t, w) => WriterEnabled(s, t, w)
    case ByCloser(t, c) => CloseEnabled(s, t, c)
    case ByCaller(t, k) => CallEnabled(s, t, k)
  }

  function Go(s: State, t: Tid, pc: Pc): State { s.(threads := s.threads[t := pc]) }

  /** The same on the strand. */
  function GoOn(s: State, t: Tid, pc: Pc): State { Go(s, t, pc).(strand := Some(t)) }

  /** The same, leaving it. */
  function GoOff(s: State, t: Tid, pc: Pc): State { Go(s, t, pc).(strand := None) }

  predicate OnlyMoves(s: State, r: State, t: Tid) { t in r.threads && r.threads == s.threads[t := r.threads[t]] }

  predicate SameBatch(s: State, r: State) {
    r.v.queue == s.v.queue && r.v.queuedBytes == s.v.queuedBytes && r.batch == s.batch && r.batchDone == s.batchDone &&
    r.sent == s.sent && r.accepted == s.accepted
  }

  predicate SameLife(s: State, r: State) {
    r.v.phase == s.v.phase && r.everRan == s.everRan && r.teardowns == s.teardowns && r.disconnects == s.disconnects
  }

  predicate Closable(p: Phase) { p.Running? || p.StopRequested? }

  function One(b: bool): nat { if b then 1 else 0 }

  // ---- the steps that change more than where a thread stands

  function ClaimStart(s: State, t: Tid): (r: State)
    ensures OnlyMoves(s, r, t) && SameBatch(s, r) && SameLife(s, r)
  {
    Go(s, t, Begin).(v := s.v.(startCalled := true), starter := Some(t))
  }

  function EnterRunning(s: State, t: Tid): (r: State)
    ensures OnlyMoves(s, r, t) && SameBatch(s, r) && r.teardowns == s.teardowns && r.disconnects == s.disconnects
  {
    Go(s, t, Setup).(v := Exchange(s.v, Stopped, Running).0, everRan := true)
  }

  function OweCallback(s: State, t: Tid): (r: State)
    ensures OnlyMoves(s, r, t) && SameBatch(s, r) && SameLife(s, r)
  {
    Go(s, t, Connected).(v := s.v.(owed := true))
  }

  function Enqueue(s: State, t: Tid, msg: Message): (r: State)
    ensures OnlyMoves(s, r, t) && SameLife(s, r)
  {
    var (v, outcome) := WriteRegion(s.v, msg);
    var spawn := outcome == Queued(true);
    Go(s, t, if spawn then Spawning else Finished).(
      v := v, accepted := s.accepted + [msg],
      owner := if spawn then Some(t) else s.owner)
  }

  function TakeQueue(s: State, t: Tid): (r: State)
    ensures OnlyMoves(s, r, t) && SameLife(s, r)
  {
    var (v, batch) := WriterRegion(s.v);
    if batch == [] then
      GoOn(s, t, WriterEmpty(|s.accepted|)).(v := v, batch := [], batchDone := true, owner := None)
    else
      GoOff(s, t, Writing(batch)).(v := v, batch := batch, batchDone := false, batchOpen := s.socketOpen,
                                   batchStarts := s.batchStarts + One(s.v.phase.StopRequested?))
  }

  function LeaveEmpty(s: State, t: Tid): (r: State)
    ensures OnlyMoves(s, r, t) && SameBatch(s, r) && SameLife(s, r)
  {
    if s.v.phase.Running? then GoOff(s, t, Finished) else Go(s, t, CloseLoad)
  }

  function FinishBatch(s: State, t: Tid, batch: seq<Message>): (r: State)
    ensures OnlyMoves(s, r, t) && SameLife(s, r)
  {
    GoOn(s, t, WriterReady).(sent := s.sent + batch, batchDone := true,
                             batchFinishes := s.batchFinishes + One(s.v.phase.StopRequested?))
  }

  function LoseBatch(s: State, t: Tid): (r: State)
    ensures OnlyMoves(s, r, t) && SameBatch(s, r) && SameLife(s, r)
  {
    GoOn(s, t, CloseLoad).(failed := true)
  }

  function RequestStop(s: State, t: Tid): (r: State)
    ensures OnlyMoves(s, r, t) && SameBatch(s, r)
    ensures r.everRan == s.everRan && r.teardowns == s.teardowns && r.disconnects == s.disconnects
    ensures r.v.phase == StopRegion(s.v).0.phase
  {
    var (v, outcome) := StopRegion(s.v);
    var closes := outcome == Requested(true);
    Go(s, t, if closes then CloseLoad else Finished).(
      v := v, debtor := if closes || s.owner.None? then t else s.owner.value,
      batchStarts := 0, batchFinishes := 0)
  }

  function WinClose(s: State, t: Tid): (r: State)
    ensures OnlyMoves(s, r, t) && SameBatch(s, r)
  {
    Go(s, t, TearDown).(v := Exchange(s.v, s.v.phase, Stopping).0, closer := Some(t))
  }

  /** What a thread in `close` does next, given the phase it has just seen. */
  function LookAt(s: State, t: Tid, p: Phase): (r: State)
    ensures OnlyMoves(s, r, t) && SameBatch(s, r) && SameLife(s, r)
  {
    if Closable(p) then Go(s, t, CloseCas(p))
    else if s.strand == Some(t) then GoOff(s, t, Finished)
    else Go(s, t, Finished)
  }

  function CallBack(s: State, t: Tid): (r: State)
    ensures OnlyMoves(s, r, t) && SameBatch(s, r)
  {
    GoOn(s, t, TornDown).(socketOpen := false, teardowns := s.teardowns + 1, owedAtTeardown := s.v.owed,
                          disconnects := s.disconnects + One(s.v.owed))
  }

  function PublishStopped(s: State, t: Tid): (r: State)
    ensures OnlyMoves(s, r, t) && SameBatch(s, r)
  {
    GoOff(s, t, Finished).(v := s.v.(phase := Stopped))
  }

  function DoStart(s: State, t: Tid, a: StartStep): State
    requires StartEnabled(s, t, a)
  {
    match a
    case StartFlag => if s.v.startCalled then Go(s, t, Finished) else ClaimStart(s, t)
    case StartCas => if Exchange(s.v, Stopped, Running).1 then EnterRunning(s, t) else Go(s, t, Finished)
    case SetupFails => Go(s, t, StartFailed)
    case StoreOwed => OweCallback(s, t)
    case CallbackFails => Go(s, t, StartFailed)
    case SpawnReader(r) => Go(Go(s, t, Finished), r, Reading)
  }

  function DoWriter(s: State, t: Tid, w: WriterStep): State
    requires WriterEnabled(s, t, w)
  {
    match w
    case SpawnWriter => Go(s, t, WriterReady)
    case TakeBatch => TakeQueue(s, t)
    case LoadAfterEmpty => LeaveEmpty(s, t)
    case BatchWritten => FinishBatch(s, t, s.threads[t].batch)
    case BatchFails => LoseBatch(s, t)
  }

  function DoClose(s: State, t: Tid, c: CloseStep): State
    requires CloseEnabled(s, t, c)
  {
    match c
    case LoadForClose => LookAt(s, t, s.v.phase)
    case CasForClose(spurious) =>
      var (_, won, seen) := Exchange(s.v, s.threads[t].expected, Stopping);
      if won && !spurious then WinClose(s, t) else LookAt(s, t, seen)
    case RunTearDown => CallBack(s, t)
    case StoreStopped => PublishStopped(s, t)
  }

  function DoCall(s: State, t: Tid, k: CallStep): State
    requires CallEnabled(s, t, k)
  {
    match k
    case Write(msg) => if WriteRegion(s.v, msg).1.Queued? then Enqueue(s, t, msg) else Go(s, t, Finished)
    case Stop => if StopRegion(s.v).1.Requested? then RequestStop(s, t) else Go(s, t, Finished)
    case ForceStop => Go(s, t, CloseLoad)
    case ReaderEnds => GoOn(s, t, CloseLoad)
  }

  function Do(s: State, step: Step): State
    requires Enabled(s, step)
  {
    match step
    case ByStarter(t, a) => DoStart(s, t, a)
    case ByWriter(t, w) => DoWriter(s, t, w)
    case ByCloser(t, c) => DoClose(s, t, c)
    case ByCaller(t, k) => DoCall(s, t, k)
  }

  // ---- the invariant

  predicate WriterPc(pc: Pc) { pc.Spawning? || pc.WriterReady? || pc.Writing? }

  predicate Owes(pc: Pc) {
    WriterPc(pc) || pc.WriterEmpty? || pc.CloseLoad? || (pc.CloseCas? && Closable(pc.expected))
  }

  function Largest(ms: seq<Message>): nat {
    if ms == [] then 0
    else
      var rest, last := Largest(ms[..|ms| - 1]), |ms[|ms| - 1]|;
      if last > rest then last else rest
  }

  /** Bytes and messages: nothing accepted is lost, reordered or counted twice. */
  predicate Conserved(s: State) {
    && s.v.queuedBytes == Total(s.v.queue)
    && s.v.writingBytes == Total(s.batch)
    && s.sent + (if s.batchDone then [] else s.batch) + s.v.queue == s.accepted
    && (s.v.mark > 0 ==> s.v.queuedBytes + s.v.writingBytes <= s.v.mark - 1 + Largest(s.accepted))
  }

  /** The right to write: held by at most one thread, and given up only on an empty queue. */
  predicate Owned(s: State) {
    && (s.v.scheduled <==> s.owner.Some?)
    && (s.owner.None? ==> s.v.queue == [] && s.batchDone && s.batch == [] && !s.failed)
    && (s.owner.Some? ==> s.owner.value in s.threads)
    && (s.owner.Some? && !s.failed ==>
          (WriterPc(s.threads[s.owner.value]) && (s.batchDone <==> !s.threads[s.owner.value].Writing?)))
    && (s.failed ==> !s.batchDone)
    && (forall t :: t in s.threads && WriterPc(s.threads[t]) ==> s.owner == Some(t) && !s.failed)
    && (forall t :: t in s.threads && s.threads[t].Writing? ==> s.threads[t].batch == s.batch && s.batch != [])
  }

  predicate OnStrand(pc: Pc) {
    pc.WriterReady? || pc.WriterEmpty? || pc.CloseLoad? || pc.CloseCas? || pc.TearDown? || pc.TornDown?
  }

  /** The strand: from its critical section to its load, and on through `close`, a writer keeps others out. */
  predicate Stranded(s: State) {
    && (s.strand.Some? ==> s.strand.value in s.threads && OnStrand(s.threads[s.strand.value]))
    && (forall t :: t in s.threads && s.threads[t].TornDown? ==> s.strand == Some(t))
    && (forall t :: t in s.threads && s.threads[t].WriterEmpty? ==>
          && s.strand == Some(t) && (s.owner.Some? ==> s.v.queue != [])
          && s.threads[t].seen <= |s.accepted| && s.sent == s.accepted[..s.threads[t].seen]
          && s.batchDone && s.batch == [])
  }

  /** The life cycle and its single teardown. */
  predicate Lifecycle(s: State) {
    && (s.everRan || (s.v.phase.Stopped? && s.owner.None?))
    && (forall t :: t in s.threads && (s.threads[t].Begin? || s.threads[t].Setup? || s.threads[t].Connected?)
          ==> s.starter == Some(t))
    && (s.everRan ==> forall t :: t in s.threads ==> !s.threads[t].Begin?)
    && (s.starter.Some? ==> s.v.startCalled)
    && (s.everRan ==> s.v.startCalled)
    && (s.closer.Some? <==> s.v.phase.Stopping? || (s.v.phase.Stopped? && s.everRan))
    && (s.closer.Some? ==> s.closer.value in s.threads)
    && (s.closer.Some? ==>
          if s.v.phase.Stopped? then s.teardowns == 1
          else if s.threads[s.closer.value].TearDown? then s.teardowns == 0
          else s.threads[s.closer.value].TornDown? && s.teardowns == 1)
    && (s.closer.None? ==> s.teardowns == 0)
    && (forall t :: t in s.threads && (s.threads[t].TearDown? || s.threads[t].TornDown?)
          ==> s.closer == Some(t) && s.v.phase.Stopping?)
    && (forall t :: t in s.threads && s.threads[t].CloseCas? ==> Closable(s.threads[t].expected))
    && s.disconnects == One(s.teardowns == 1 && s.owedAtTeardown)
  }

  /** The close that is always still owed, and the batches that can still come before it. */
  predicate Pending(s: State) {
    && (s.failed && Closable(s.v.phase) ==>
          s.owner.Some? && s.owner.value in s.threads && Owes(s.threads[s.owner.value]))
    && (s.v.phase.StopRequested? ==>
          && s.debtor in s.threads && Owes(s.threads[s.debtor])
          && s.batchStarts + One(s.v.queue != []) <= 1
          && s.batchFinishes + One(!s.batchDone && !s.failed) + One(s.v.queue != []) <= 2)
  }

  predicate WriteSide(s: State) { Conserved(s) && Owned(s) && Stranded(s) }

  predicate CloseSide(s: State) { Lifecycle(s) && Pending(s) }

  predicate Inv(s: State) { WriteSide(s) && CloseSide(s) }

  lemma InitHolds(mark: nat)
    ensures Inv(Init(mark))
  {}

  // ---- every step keeps the invariant

  /** A thread that neither holds the right to write, nor the strand, nor the teardown, and
      does not give up a close it owes, may move on without touching anything shared. */
  predicate Movable(s: State, t: Tid, pc: Pc) {
    && (t in s.threads ==>
          (!WriterPc(s.threads[t]) && !s.threads[t].WriterEmpty? && !s.threads[t].TearDown? && !s.threads[t].TornDown?))
    && (pc.StartFailed? || pc.Reading? || pc.CloseLoad? || pc.Finished? || (pc.CloseCas? && Closable(pc.expected)))
    && (t in s.threads && Owes(s.threads[t]) && Closable(s.v.phase) ==> Owes(pc))
    && (s.strand == Some(t) ==> OnStrand(pc))
  }

  lemma MoveWrites(s: State, t: Tid, pc: Pc)
    requires WriteSide(s) && Movable(s, t, pc)
    ensures WriteSide(Go(s, t, pc))
  {}

  lemma MoveCloses(s: State, t: Tid, pc: Pc)
    requires CloseSide(s) && Movable(s, t, pc)
    ensures CloseSide(Go(s, t, pc))
  {}

  lemma ClaimStartWrites(s: State, t: Tid)
    requires WriteSide(s) && Fresh(s, t) && !s.v.startCalled
    ensures WriteSide(ClaimStart(s, t))
  {}

  lemma ClaimStartCloses(s: State, t: Tid)
    requires CloseSide(s) && Fresh(s, t) && !s.v.startCalled
    ensures CloseSide(ClaimStart(s, t))
  {}

  lemma EnterRunningWrites(s: State, t: Tid)
    requires WriteSide(s) && At(s, t, Begin) && s.v.phase.Stopped?
    ensures WriteSide(EnterRunning(s, t))
  {}

  lemma EnterRunningCloses(s: State, t: Tid)
    requires Owned(s) && CloseSide(s) && At(s, t, Begin) && s.v.phase.Stopped?
    ensures CloseSide(EnterRunning(s, t))
  {}

  lemma OweCallbackWrites(s: State, t: Tid)
    requires WriteSide(s) && At(s, t, Setup)
    ensures WriteSide(OweCallback(s, t))
  {}

  lemma OweCallbackCloses(s: State, t: Tid)
    requires CloseSide(s) && At(s, t, Setup)
    ensures CloseSide(OweCallback(s, t))
  {}

  lemma TotalSnoc(ms: seq<Message>, m: Message)
    ensures Total(ms + [m]) == Total(ms) + |m|
    ensures Largest(ms + [m]) == if |m| > Largest(ms) then |m| else Largest(ms)
  {
    assert (ms + [m])[..|ms|] == ms;
  }

  lemma EnqueueConserves(s: State, t: Tid, msg: Message)
    requires Conserved(s) && Fresh(s, t) && WriteRegion(s.v, msg).1.Queued?
    ensures Conserved(Enqueue(s, t, msg))
  {
    hide Total, Largest;
    TotalSnoc(s.v.queue, msg);
    TotalSnoc(s.accepted, msg);
  }

  lemma EnqueueOwns(s: State, t: Tid, msg: Message)
    requires Owned(s) && Fresh(s, t) && WriteRegion(s.v, msg).1.Queued?
    ensures Owned(Enqueue(s, t, msg))
  {}

  lemma EnqueueStrands(s: State, t: Tid, msg: Message)
    requires Stranded(s) && Fresh(s, t) && WriteRegion(s.v, msg).1.Queued?
    ensures Stranded(Enqueue(s, t, msg))
  {}

  lemma EnqueueWrites(s: State, t: Tid, msg: Message)
    requires WriteSide(s) && Fresh(s, t) && WriteRegion(s.v, msg).1.Queued?
    ensures WriteSide(Enqueue(s, t, msg))
  {
    hide Conserved, Owned, Stranded, Enqueue, WriteRegion;
    EnqueueConserves(s, t, msg);
    EnqueueOwns(s, t, msg);
    EnqueueStrands(s, t, msg);
  }

  lemma EnqueueCloses(s: State, t: Tid, msg: Message)
    requires CloseSide(s) && Fresh(s, t) && WriteRegion(s.v, msg).1.Queued?
    ensures CloseSide(Enqueue(s, t, msg))
  {}

  lemma SpawnWrites(s: State, t: Tid)
    requires WriteSide(s) && At(s, t, Spawning)
    ensures WriteSide(Go(s, t, WriterReady))
  {}

  lemma SpawnCloses(s: State, t: Tid)
    requires CloseSide(s) && At(s, t, Spawning)
    ensures CloseSide(Go(s, t, WriterReady))
  {}

  lemma TakeQueueConserves(s: State, t: Tid)
    requires Conserved(s) && Owned(s) && At(s, t, WriterReady)
    ensures Conserved(TakeQueue(s, t))
  {
    hide Largest;
    assert Total([]) == 0;
  }

  lemma TakeQueueOwns(s: State, t: Tid)
    requires Owned(s) && At(s, t, WriterReady)
    ensures Owned(TakeQueue(s, t))
  {
    hide Total;
  }

  lemma TakeQueueStrands(s: State, t: Tid)
    requires Conserved(s) && Owned(s) && Stranded(s) && At(s, t, WriterReady) && StrandFor(s, t)
    ensures Stranded(TakeQueue(s, t))
  {
    hide Total, Largest;
  }

  lemma TakeQueueWrites(s: State, t: Tid)
    requires WriteSide(s) && At(s, t, WriterReady) && StrandFor(s, t)
    ensures WriteSide(TakeQueue(s, t))
  {
    hide Conserved, Owned, Stranded, TakeQueue;
    TakeQueueConserves(s, t);
    TakeQueueOwns(s, t);
    TakeQueueStrands(s, t);
  }

  lemma TakeQueueCloses(s: State, t: Tid)
    requires Owned(s) && CloseSide(s) && At(s, t, WriterReady) && StrandFor(s, t)
    ensures CloseSide(TakeQueue(s, t))
  {
    hide Total;
    TakeQueueLives(s, t);
    TakeQueuePends(s, t);
  }

  lemma TakeQueueLives(s: State, t: Tid)
    requires Owned(s) && Lifecycle(s) && At(s, t, WriterReady)
    ensures Lifecycle(TakeQueue(s, t))
  {
    hide Lifecycle, Total;
    OwnerRan(s);
    LivesOn(s, TakeQueue(s, t), t);
  }

  lemma OwnerRan(s: State)
    requires Owned(s) && Lifecycle(s)
    ensures (exists t :: t in s.threads && WriterPc(s.threads[t])) ==> s.everRan
  {}

  /** The life cycle takes no notice of a thread that neither starts nor tears down. */
  lemma LivesOn(s: State, r: State, t: Tid)
    requires Lifecycle(s) && t in s.threads && OnlyMoves(s, r, t) && SameLife(s, r) && (s.everRan || r.owner == s.owner)
    requires r.v.startCalled == s.v.startCalled && r.starter == s.starter && r.closer == s.closer
    requires r.owedAtTeardown == s.owedAtTeardown
    requires !s.threads[t].TearDown? && !s.threads[t].TornDown? && Bystander(r.threads[t])
    ensures Lifecycle(r)
  {}

  predicate Bystander(pc: Pc) {
    WriterPc(pc) || pc.WriterEmpty? || pc.CloseLoad? || pc.Finished?
  }

  lemma TakeQueuePends(s: State, t: Tid)
    requires Owned(s) && Pending(s) && At(s, t, WriterReady)
    ensures Pending(TakeQueue(s, t))
  {
    hide Total;
  }

  lemma LeaveEmptyWrites(s: State, t: Tid)
    requires WriteSide(s) && t in s.threads && s.threads[t].WriterEmpty?
    ensures WriteSide(LeaveEmpty(s, t))
  {
    hide Total, Largest;
    if s.v.phase.Running? {
      LeavesForGood(s, t);
    } else {
      LeavesToClose(s, t);
    }
  }

  lemma LeavesForGood(s: State, t: Tid)
    requires WriteSide(s) && t in s.threads && s.threads[t].WriterEmpty?
    ensures WriteSide(GoOff(s, t, Finished))
  {
    hide Total, Largest;
  }

  lemma LeavesToClose(s: State, t: Tid)
    requires WriteSide(s) && t in s.threads && s.threads[t].WriterEmpty?
    ensures WriteSide(Go(s, t, CloseLoad))
  {
    hide Total, Largest;
  }

  lemma LeaveEmptyCloses(s: State, t: Tid)
    requires WriteSide(s) && CloseSide(s) && t in s.threads && s.threads[t].WriterEmpty?
    ensures CloseSide(LeaveEmpty(s, t))
  {
    hide Conserved, Total, Lifecycle;
    LivesOn(s, LeaveEmpty(s, t), t);
    LeaveEmptyPends(s, t);
  }

  lemma LeaveEmptyPends(s: State, t: Tid)
    requires WriteSide(s) && Pending(s) && t in s.threads && s.threads[t].WriterEmpty?
    ensures Pending(LeaveEmpty(s, t))
  {
    hide Conserved, Total;
  }

  lemma FinishBatchWrites(s: State, t: Tid, batch: seq<Message>)
    requires WriteSide(s) && At(s, t, Writing(batch)) && s.strand.None?
    ensures WriteSide(FinishBatch(s, t, batch))
  {}

  lemma FinishBatchCloses(s: State, t: Tid, batch: seq<Message>)
    requires Owned(s) && CloseSide(s) && At(s, t, Writing(batch))
    ensures CloseSide(FinishBatch(s, t, batch))
  {}

  lemma LoseBatchWrites(s: State, t: Tid, batch: seq<Message>)
    requires WriteSide(s) && At(s, t, Writing(batch)) && s.strand.None?
    ensures WriteSide(LoseBatch(s, t))
  {}

  lemma LoseBatchCloses(s: State, t: Tid, batch: seq<Message>)
    requires Owned(s) && CloseSide(s) && At(s, t, Writing(batch))
    ensures CloseSide(LoseBatch(s, t))
  {}

  lemma RequestStopWrites(s: State, t: Tid)
    requires WriteSide(s) && (Fresh(s, t) || At(s, t, StartFailed)) && s.v.phase.Running?
    ensures WriteSide(RequestStop(s, t))
  {}

  lemma RequestStopCloses(s: State, t: Tid)
    requires Owned(s) && CloseSide(s) && (Fresh(s, t) || At(s, t, StartFailed)) && s.v.phase.Running?
    ensures CloseSide(RequestStop(s, t))
  {}

  lemma WinCloseWrites(s: State, t: Tid)
    requires WriteSide(s) && At(s, t, CloseCas(s.v.phase))
    ensures WriteSide(WinClose(s, t))
  {}

  lemma WinCloseCloses(s: State, t: Tid)
    requires CloseSide(s) && At(s, t, CloseCas(s.v.phase))
    ensures CloseSide(WinClose(s, t))
  {}

  lemma CallBackWrites(s: State, t: Tid)
    requires WriteSide(s) && At(s, t, TearDown) && StrandFor(s, t)
    ensures WriteSide(CallBack(s, t))
  {}

  lemma CallBackCloses(s: State, t: Tid)
    requires CloseSide(s) && At(s, t, TearDown)
    ensures CloseSide(CallBack(s, t))
  {}

  lemma PublishStoppedWrites(s: State, t: Tid)
    requires WriteSide(s) && At(s, t, TornDown)
    ensures WriteSide(PublishStopped(s, t))
  {}

  lemma PublishStoppedCloses(s: State, t: Tid)
    requires CloseSide(s) && At(s, t, TornDown)
    ensures CloseSide(PublishStopped(s, t))
  {}

  lemma StartKeeps(s: State, t: Tid, a: StartStep)
    requires Inv(s) && StartEnabled(s, t, a)
    ensures Inv(DoStart(s, t, a))
  {
    hide WriteSide, CloseSide, ClaimStart, EnterRunning, OweCallback, Movable;
    NotOnStrand(s, t);
    match a
    case StartFlag =>
      if s.v.startCalled { Moves(s, t, Finished); } else { ClaimStartWrites(s, t); ClaimStartCloses(s, t); }
    case StartCas =>
      if s.v.phase.Stopped? {
        WriteSideOwns(s); EnterRunningWrites(s, t); EnterRunningCloses(s, t);
      } else { Moves(s, t, Finished); }
    case SetupFails => Moves(s, t, StartFailed);
    case StoreOwed => OweCallbackWrites(s, t); OweCallbackCloses(s, t);
    case CallbackFails => Moves(s, t, StartFailed);
    case SpawnReader(r) => NotOnStrand(s, r); Moves(s, t, Finished); Moves(Go(s, t, Finished), r, Reading);
  }

  lemma WriterKeeps(s: State, t: Tid, w: WriterStep)
    requires Inv(s) && WriterEnabled(s, t, w)
    ensures Inv(DoWriter(s, t, w))
  {
    hide WriteSide, CloseSide, TakeQueue, LeaveEmpty, FinishBatch, LoseBatch;
    WriteSideOwns(s);
    match w
    case SpawnWriter => SpawnWrites(s, t); SpawnCloses(s, t);
    case TakeBatch => TakeQueueWrites(s, t); TakeQueueCloses(s, t);
    case LoadAfterEmpty => LeaveEmptyWrites(s, t); LeaveEmptyCloses(s, t);
    case BatchWritten => FinishBatchWrites(s, t, s.threads[t].batch); FinishBatchCloses(s, t, s.threads[t].batch);
    case BatchFails => LoseBatchWrites(s, t, s.threads[t].batch); LoseBatchCloses(s, t, s.threads[t].batch);
  }

  lemma CloseKeeps(s: State, t: Tid, c: CloseStep)
    requires Inv(s) && CloseEnabled(s, t, c)
    ensures Inv(DoClose(s, t, c))
  {
    hide WriteSide, CloseSide, WinClose, LookAt, CallBack, PublishStopped;
    match c
    case LoadForClose => Looks(s, t, s.v.phase);
    case CasForClose(spurious) =>
      if s.v.phase == s.threads[t].expected && !spurious { WinCloseWrites(s, t); WinCloseCloses(s, t); }
      else { Looks(s, t, s.v.phase); }
    case RunTearDown => CallBackWrites(s, t); CallBackCloses(s, t);
    case StoreStopped => WriteSideOwns(s); PublishStoppedWrites(s, t); PublishStoppedCloses(s, t);
  }

  lemma CallKeeps(s: State, t: Tid, k: CallStep)
    requires Inv(s) && CallEnabled(s, t, k)
    ensures Inv(DoCall(s, t, k))
  {
    hide WriteSide, CloseSide, Enqueue, RequestStop, Movable;
    NotOnStrand(s, t);
    match k
    case Write(msg) =>
      if WriteRegion(s.v, msg).1.Queued? { EnqueueWrites(s, t, msg); EnqueueCloses(s, t, msg); }
      else { Moves(s, t, Finished); }
    case Stop =>
      if s.v.phase.Running? { WriteSideOwns(s); RequestStopWrites(s, t); RequestStopCloses(s, t); }
      else { Moves(s, t, Finished); }
    case ForceStop => Moves(s, t, CloseLoad);
    case ReaderEnds => Moves(s, t, CloseLoad); TakesStrand(Go(s, t, CloseLoad), t);
  }

  /** Every step of every interleaving keeps the invariant. */
  lemma StepKeeps(s: State, step: Step)
    requires Inv(s) && Enabled(s, step)
    ensures Inv(Do(s, step))
  {
    hide Inv, StartEnabled, WriterEnabled, CloseEnabled, CallEnabled, DoStart, DoWriter, DoClose, DoCall;
    match step
    case ByStarter(t, a) => StartKeeps(s, t, a);
    case ByWriter(t, w) => WriterKeeps(s, t, w);
    case ByCloser(t, c) => CloseKeeps(s, t, c);
    case ByCaller(t, k) => CallKeeps(s, t, k);
  }

  lemma WriteSideOwns(s: State)
    requires WriteSide(s)
    ensures Owned(s)
  {}

  lemma Moves(s: State, t: Tid, pc: Pc)
    requires Inv(s)
    requires t in s.threads ==>
      !(WriterPc(s.threads[t]) || s.threads[t].WriterEmpty? || s.threads[t].TearDown? || s.threads[t].TornDown?)
    requires pc.StartFailed? || pc.Reading? || pc.CloseLoad? || pc.Finished? || (pc.CloseCas? && Closable(pc.expected))
    requires t in s.threads && Owes(s.threads[t]) && Closable(s.v.phase) ==> Owes(pc)
    requires s.strand == Some(t) ==> OnStrand(pc)
    ensures Inv(Go(s, t, pc))
  {
    hide WriteSide, CloseSide;
    MoveWrites(s, t, pc);
    MoveCloses(s, t, pc);
  }

  lemma TakesStrand(s: State, t: Tid)
    requires Inv(s) && s.strand.None? && t in s.threads && OnStrand(s.threads[t])
    ensures Inv(s.(strand := Some(t)))
  {
    hide Total, Largest;
  }

  lemma LeavesStrand(s: State)
    requires Inv(s) && s.strand.Some? && !s.threads[s.strand.value].WriterEmpty? && !s.threads[s.strand.value].TornDown?
    ensures Inv(s.(strand := None))
  {
    hide Total, Largest;
  }

  /** A thread in `close`, before or after its compare-exchange, acts on the phase it has seen. */
  lemma Looks(s: State, t: Tid, p: Phase)
    requires Inv(s) && t in s.threads && (s.threads[t].CloseLoad? || s.threads[t].CloseCas?)
    requires p == s.v.phase
    ensures Inv(LookAt(s, t, p))
  {
    hide Inv, Movable;
    if Closable(p) {
      Moves(s, t, CloseCas(p));
    } else if s.strand == Some(t) {
      LeavesStrand(s);
      Moves(s.(strand := None), t, Finished);
    } else {
      Moves(s, t, Finished);
    }
  }

  lemma NotOnStrand(s: State, t: Tid)
    requires Inv(s)
    ensures t !in s.threads || !OnStrand(s.threads[t]) ==> s.strand != Some(t)
  {
    hide Conserved, Owned, CloseSide;
  }

  // ---- runs

  predicate Path(s: State, steps: seq<Step>)
    decreases |steps|, 0
  {
    steps == [] ||
    (Path(s, steps[..|steps| - 1]) && Enabled(End(s, steps[..|steps| - 1]), steps[|steps| - 1]))
  }

  function End(s: State, steps: seq<Step>): State
    requires Path(s, steps)
    decreases |steps|, 1
  {
    if steps == [] then s else Do(End(s, steps[..|steps| - 1]), steps[|steps| - 1])
  }

  lemma {:induction false} RunKeeps(mark: nat, steps: seq<Step>)
    requires Path(Init(mark), steps)
    ensures Inv(End(Init(mark), steps))
    decreases |steps|
  {
    hide Inv, Enabled, Do;
    if steps == [] {
      InitHolds(mark);
    } else {
      RunKeeps(mark, steps[..|steps| - 1]);
      StepKeeps(End(Init(mark), steps[..|steps| - 1]), steps[|steps| - 1]);
    }
  }

  // ---- stream order and conservation

  /** Batches waiting to be confirmed by the socket. */
  function InFlight(s: State): seq<Message> { if s.batchDone then [] else s.batch }

  lemma {:induction false} LargestAttained(ms: seq<Message>)
    requires ms != []
    ensures exists m :: m in ms && |m| == Largest(ms)
  {
    var init, last := ms[..|ms| - 1], ms[|ms| - 1];
    if |last| > Largest(init) || init == [] {
      assert last in ms && |last| == Largest(ms);
    } else {
      LargestAttained(init);
      var m :| m in init && |m| == Largest(init);
      assert m in ms && |m| == Largest(ms);
    }
  }

  /** In every reachable state: what was sent, what is in flight and what is queued make up
      the accepted messages in lock order; the byte counters match; one writer at most has a
      batch; and with a high-water mark the pending bytes stay under the mark but for one
      accepted message. */
  lemma StreamConserved(mark: nat, steps: seq<Step>)
    requires Path(Init(mark), steps)
    ensures var s := End(Init(mark), steps);
      && s.sent + InFlight(s) + s.v.queue == s.accepted
      && s.v.queuedBytes == Total(s.v.queue) && s.v.writingBytes == Total(s.batch)
      && (forall t, u :: t in s.threads && u in s.threads && s.threads[t].Writing? && s.threads[u].Writing? ==> t == u)
      && (s.v.mark > 0 && s.accepted != [] ==>
            exists m :: m in s.accepted && s.v.queuedBytes + s.v.writingBytes <= s.v.mark - 1 + |m|)
  {
    hide Path, End, Lifecycle, Stranded, Pending, Largest;
    RunKeeps(mark, steps);
    var s := End(Init(mark), steps);
    if s.accepted != [] {
      LargestAttained(s.accepted);
    }
  }

  // ---- no lost stop

  /** Steps of its own that a thread owing a close is away from it. */
  function Distance(s: State, t: Tid): nat
    requires t in s.threads
  {
    var waiting := 2 * One(s.v.queue != []);
    match s.threads[t]
    case Spawning => 5 + waiting
    case Writing(_) => 5 + waiting
    case WriterReady => 4 + waiting
    case WriterEmpty(_) => 3
    case CloseLoad => 2
    case CloseCas(p) => if p == s.v.phase then 0 else 1
    case _ => 0
  }

  function Actor(step: Step): Tid { step.t }

  /** A compare-exchange that fails for no reason. */
  predicate Spurious(step: Step) { step.ByCloser? && step.c == CasForClose(true) }

  /** Whenever a stop has been requested, some party still owes the close, and since the
      request at most one batch has been started and two finished. */
  lemma StopIsOwed(mark: nat, steps: seq<Step>)
    requires Path(Init(mark), steps) && End(Init(mark), steps).v.phase.StopRequested?
    ensures var s := End(Init(mark), steps);
      && (exists t :: t in s.threads && Owes(s.threads[t]))
      && s.batchStarts <= 1 && s.batchFinishes <= 2
  {
    hide Path, End, WriteSide, Lifecycle;
    RunKeeps(mark, steps);
  }

  // What a step of each party leaves alone.

  lemma StartFrame(s: State, t: Tid, a: StartStep)
    requires StartEnabled(s, t, a)
    ensures var r := DoStart(s, t, a);
      && SameBatch(s, r) && s.teardowns == r.teardowns && s.disconnects == r.disconnects
      && (forall u :: u in s.threads && u != t ==> u in r.threads && r.threads[u] == s.threads[u])
  {
    hide ClaimStart, EnterRunning, OweCallback, Exchange;
  }

  lemma StartLife(s: State, t: Tid, a: StartStep)
    requires StartEnabled(s, t, a) && Lifecycle(s) && s.everRan
    ensures SameLife(s, DoStart(s, t, a))
  {}

  lemma WriterFrame(s: State, t: Tid, w: WriterStep)
    requires WriterEnabled(s, t, w)
    ensures var r := DoWriter(s, t, w); OnlyMoves(s, r, t) && SameLife(s, r) && (r.v.queue == [] || r.v.queue == s.v.queue)
  {
    hide Total;
  }

  lemma CloseFrame(s: State, t: Tid, c: CloseStep)
    requires CloseEnabled(s, t, c)
    ensures var r := DoClose(s, t, c);
      && OnlyMoves(s, r, t) && SameBatch(s, r) && r.everRan == s.everRan
      && (r.v.phase == s.v.phase || r.v.phase.Stopping? || r.v.phase.Stopped?)
  {
    hide LookAt;
  }

  lemma CallFrame(s: State, t: Tid, k: CallStep)
    requires CallEnabled(s, t, k) && !s.v.phase.Running?
    ensures var r := DoCall(s, t, k); OnlyMoves(s, r, t) && SameBatch(s, r) && SameLife(s, r)
  {}

  lemma CallThreads(s: State, t: Tid, k: CallStep)
    requires CallEnabled(s, t, k)
    ensures OnlyMoves(s, DoCall(s, t, k), t)
  {
    hide Enqueue, RequestStop, WriteRegion, StopRegion, SameBatch, SameLife;
  }

  lemma ThreadFrame(s: State, step: Step, u: Tid)
    requires Enabled(s, step) && u in s.threads && Actor(step) != u
    ensures var s' := Do(s, step); u in s'.threads && s'.threads[u] == s.threads[u]
  {
    hide StartEnabled, WriterEnabled, CloseEnabled, CallEnabled, DoStart, DoWriter, DoClose, DoCall, SameBatch, SameLife;
    match step
    case ByStarter(t, a) => StartFrame(s, t, a);
    case ByWriter(t, w) => WriterFrame(s, t, w);
    case ByCloser(t, c) => CloseFrame(s, t, c);
    case ByCaller(t, k) => CallThreads(s, t, k);
  }

  lemma QueueFrame(s: State, step: Step)
    requires Enabled(s, step) && !s.v.phase.Running? && !s.v.phase.Stopped?
    ensures var s' := Do(s, step); s'.v.queue == [] || s'.v.queue == s.v.queue
  {
    hide StartEnabled, WriterEnabled, CloseEnabled, CallEnabled, DoStart, DoWriter, DoClose, DoCall;
    match step
    case ByStarter(t, a) => StartFrame(s, t, a);
    case ByWriter(t, w) => WriterFrame(s, t, w);
    case ByCloser(t, c) => CloseFrame(s, t, c);
    case ByCaller(t, k) => CallFrame(s, t, k);
  }

  /** The steps of others leave a close owed where it was, or bring it nearer. */
  lemma OthersKeepDebt(s: State, step: Step, t: Tid)
    requires Inv(s) && Enabled(s, step) && s.v.phase.StopRequested?
    requires t in s.threads && Owes(s.threads[t]) && Actor(step) != t
    ensures var s' := Do(s, step);
      s'.v.phase.StopRequested? ==>
        t in s'.threads && s'.threads[t] == s.threads[t] && Distance(s', t) <= Distance(s, t)
  {
    hide Inv, Enabled, Do;
    ThreadFrame(s, step, t);
    QueueFrame(s, step);
  }

  lemma WriterPaysDebt(s: State, t: Tid, w: WriterStep)
    requires Inv(s) && WriterEnabled(s, t, w) && s.v.phase.StopRequested?
    ensures var s' := DoWriter(s, t, w); t in s'.threads && Owes(s'.threads[t]) && Distance(s', t) < Distance(s, t)
  {
    hide Conserved, Stranded, Lifecycle, Pending, Total;
    match w
    case SpawnWriter =>
    case TakeBatch => RoundPaysDebt(s, t);
    case LoadAfterEmpty =>
    case BatchWritten =>
    case BatchFails =>
  }

  lemma RoundPaysDebt(s: State, t: Tid)
    requires Owned(s) && WriterEnabled(s, t, TakeBatch)
    ensures var s' := TakeQueue(s, t); t in s'.threads && Owes(s'.threads[t]) && Distance(s', t) < Distance(s, t)
  {
    hide Total;
  }

  lemma CloserPaysDebt(s: State, t: Tid, c: CloseStep)
    requires CloseEnabled(s, t, c) && s.v.phase.StopRequested? && Owes(s.threads[t])
    ensures var s' := DoClose(s, t, c);
      s'.v.phase.StopRequested? ==>
        && t in s'.threads && Owes(s'.threads[t])
        && if c == CasForClose(true) then Distance(s', t) <= Distance(s, t) else Distance(s', t) < Distance(s, t)
  {
    hide CallBack, PublishStopped, WinClose, LookAt;
    match c
    case LoadForClose => LookPaysDebt(s, t);
    case CasForClose(_) => LookPaysDebt(s, t); WinEnds(s, t);
    case RunTearDown =>
    case StoreStopped =>
  }

  lemma LookPaysDebt(s: State, t: Tid)
    requires s.v.phase.StopRequested? && t in s.threads && (s.threads[t].CloseLoad? || s.threads[t].CloseCas?)
    ensures var s' := LookAt(s, t, s.v.phase);
      && t in s'.threads && s'.threads[t] == CloseCas(s'.v.phase) && s'.v == s.v && Distance(s', t) == 0
  {}

  lemma WinEnds(s: State, t: Tid)
    ensures WinClose(s, t).v.phase.Stopping?
  {}

  /** Each step of its own brings a thread nearer to the close it owes, unless it is a
      compare-exchange that fails for no reason. */
  lemma OwnStepPaysDebt(s: State, step: Step)
    requires Inv(s) && Enabled(s, step) && s.v.phase.StopRequested?
    requires var t := Actor(step); t in s.threads && Owes(s.threads[t])
    ensures var s', t := Do(s, step), Actor(step);
      s'.v.phase.StopRequested? ==>
        && t in s'.threads && Owes(s'.threads[t])
        && if Spurious(step) then Distance(s', t) <= Distance(s, t) else Distance(s', t) < Distance(s, t)
  {
    hide Inv, DoWriter, DoClose, DoStart, DoCall, WriterEnabled, CloseEnabled, Distance;
    match step
    case ByWriter(t, w) => WriterPaysDebt(s, t, w);
    case ByCloser(t, c) => CloserPaysDebt(s, t, c);
    case _ =>
  }

  /** A requested stop is never lost: some thread owes the close, keeps owing it while the
      stop is pending, and is at most seven steps of its own away from it. */
  lemma DebtIsPaid(s: State, step: Step, t: Tid)
    requires Inv(s) && Enabled(s, step) && s.v.phase.StopRequested?
    requires t in s.threads && Owes(s.threads[t])
    ensures Distance(s, t) <= 7
    ensures var s' := Do(s, step);
      s'.v.phase.StopRequested? ==>
        && t in s'.threads && Owes(s'.threads[t]) && Distance(s', t) <= Distance(s, t)
        && (Actor(step) == t && !Spurious(step) ==> Distance(s', t) < Distance(s, t))
  {
    hide Inv, Enabled, Do, Owes;
    if Actor(step) == t {
      OwnStepPaysDebt(s, step);
    } else {
      OthersKeepDebt(s, step, t);
    }
  }

  // ---- graceful drain

  /** Everything accepted has been handed to the socket, and nothing is queued or in flight. */
  predicate Drained(s: State) {
    s.sent == s.accepted && s.v.queue == [] && s.batchDone && s.v.queuedBytes == 0
  }

  /** The session is being torn down, or has been. */
  predicate Ended(s: State) { s.v.phase.Stopping? || (s.v.phase.Stopped? && s.everRan) }

  /** Until the session itself begins to close, nobody forces it, the peer stays and no operation fails. */
  predicate Graceful(s: State, step: Step) {
    Ended(s) ||
    match step
    case ByStarter(_, a) => !a.SetupFails? && !a.CallbackFails?
    case ByWriter(_, w) => !w.BatchFails?
    case ByCloser(_, _) => true
    case ByCaller(_, k) => !k.ForceStop? && !k.ReaderEnds?
  }

  predicate GracefulPath(s: State, steps: seq<Step>)
    requires Path(s, steps)
    decreases |steps|
  {
    steps == [] ||
    (GracefulPath(s, steps[..|steps| - 1]) && Graceful(End(s, steps[..|steps| - 1]), steps[|steps| - 1]))
  }

  /** A stop that closes at once finds everything drained. */
  lemma DirectCloseDrains(s: State, t: Tid)
    requires Inv(s) && CallEnabled(s, t, Stop) && StopRegion(s.v).1 == Requested(true)
    ensures Drained(s) && Drained(DoCall(s, t, Stop)) && s.v.writingBytes == 0
  {
    hide Stranded, Lifecycle, Pending;
  }

  /** So does a writer whose round comes after the request and finds the queue empty. */
  lemma EmptyRoundDrains(s: State, t: Tid)
    requires Inv(s) && WriterEnabled(s, t, TakeBatch) && s.v.queue == []
    ensures Drained(s) && Drained(DoWriter(s, t, TakeBatch)) && DoWriter(s, t, TakeBatch).v.writingBytes == 0
  {
    hide Stranded, Lifecycle, Pending;
  }

  lemma DrainedWriterStays(s: State, t: Tid, w: WriterStep)
    requires Inv(s) && WriterEnabled(s, t, w) && Drained(s)
    ensures Drained(DoWriter(s, t, w))
  {
    hide Conserved, Stranded, CloseSide, Total;
    if w.TakeBatch? {
      EmptyRoundDrains(s, t);
    }
  }

  lemma StepStaysDrained(s: State, step: Step)
    requires Inv(s) && Enabled(s, step) && s.everRan && !s.v.phase.Running? && Drained(s)
    ensures Drained(Do(s, step)) && !Do(s, step).v.phase.Running? && Do(s, step).everRan
  {
    hide WriteSide, Lifecycle, Pending, StartEnabled, WriterEnabled, CloseEnabled, CallEnabled, DoStart, DoWriter, DoClose,
      DoCall;
    match step
    case ByStarter(t, a) => StartFrame(s, t, a); StartLife(s, t, a);
    case ByWriter(t, w) => DrainedWriterStays(s, t, w); WriterFrame(s, t, w);
    case ByCloser(t, c) => CloseFrame(s, t, c);
    case ByCaller(t, k) => CallFrame(s, t, k);
  }

  /** Once drained and no longer running, it stays drained to the end of every run. */
  lemma {:induction false} DrainedStays(s: State, steps: seq<Step>)
    requires Inv(s) && s.everRan && !s.v.phase.Running? && Drained(s) && Path(s, steps)
    ensures var e := End(s, steps); Inv(e) && Drained(e) && !e.v.phase.Running? && e.everRan
    decreases |steps|
  {
    hide Inv, Drained, Do, Enabled;
    if steps == [] {
    } else {
      var front, last := steps[..|steps| - 1], steps[|steps| - 1];
      DrainedStays(s, front);
      StepKeeps(End(s, front), last);
      StepStaysDrained(End(s, front), last);
    }
  }

  /** A thread on its way to close, or deciding whether to. */
  predicate ClosePc(pc: Pc) { pc.WriterEmpty? || pc.CloseLoad? || pc.CloseCas? }

  predicate NoCloser(s: State) { forall u :: u in s.threads ==> !s.threads[u].CloseLoad? && !s.threads[u].CloseCas? }

  /** A writer has found the queue empty and not yet loaded the state, and a message has been accepted since. */
  predicate Slipped(s: State) {
    s.v.scheduled && s.strand.Some? && s.strand.value in s.threads && s.threads[s.strand.value].WriterEmpty?
  }

  /** While the stop is pending nobody closes before the drain is done. */
  predicate Draining(s: State) {
    && s.everRan && !s.v.phase.Running?
    && (Drained(s) || (s.v.phase.StopRequested? && forall u :: u in s.threads ==> !ClosePc(s.threads[u])))
  }

  lemma StopBeginsDraining(s: State, t: Tid)
    requires Inv(s) && s.v.phase.Running? && CallEnabled(s, t, Stop) && NoCloser(s) && !Slipped(s)
    ensures Draining(DoCall(s, t, Stop))
  {
    hide Conserved, Pending;
    if s.v.scheduled {
      assert forall u :: u in s.threads ==> !ClosePc(s.threads[u]);
    } else {
      DirectCloseDrains(s, t);
    }
  }

  lemma WriterKeepsDraining(s: State, t: Tid, w: WriterStep)
    requires Inv(s) && WriterEnabled(s, t, w) && Draining(s) && !Drained(s) && !w.BatchFails?
    ensures Draining(DoWriter(s, t, w))
  {
    hide Conserved, Stranded, Lifecycle, Pending, Total;
    if w.TakeBatch? && s.v.queue == [] {
      EmptyRoundDrains(s, t);
    }
  }

  lemma StartKeepsDraining(s: State, t: Tid, a: StartStep)
    requires Lifecycle(s) && StartEnabled(s, t, a) && Draining(s) && !Drained(s) && !a.SetupFails? && !a.CallbackFails?
    ensures Draining(DoStart(s, t, a))
  {}

  lemma CallKeepsDraining(s: State, t: Tid, k: CallStep)
    requires CallEnabled(s, t, k) && Draining(s) && !Drained(s) && !k.ForceStop? && !k.ReaderEnds?
    ensures Draining(DoCall(s, t, k))
  {}

  lemma NoCloseWhileDraining(s: State, t: Tid, c: CloseStep)
    requires Lifecycle(s) && Draining(s) && !Drained(s)
    ensures !CloseEnabled(s, t, c)
  {}

  lemma StepKeepsDraining(s: State, step: Step)
    requires Inv(s) && Enabled(s, step) && Draining(s) && Graceful(s, step)
    ensures Draining(Do(s, step))
  {
    hide WriteSide, Lifecycle, Pending, Drained, StartEnabled, WriterEnabled, CloseEnabled, CallEnabled, DoStart, DoWriter,
      DoClose, DoCall;
    if Drained(s) {
      StepStaysDrained(s, step);
    } else {
      match step
      case ByStarter(t, a) => StartKeepsDraining(s, t, a);
      case ByWriter(t, w) => WriterKeepsDraining(s, t, w);
      case ByCloser(t, c) => NoCloseWhileDraining(s, t, c);
      case ByCaller(t, k) => CallKeepsDraining(s, t, k);
    }
  }

  lemma {:induction false} DrainingStays(s: State, steps: seq<Step>)
    requires Inv(s) && Draining(s) && Path(s, steps) && GracefulPath(s, steps)
    ensures Inv(End(s, steps)) && Draining(End(s, steps))
    decreases |steps|
  {
    hide Inv, Draining, Do, Enabled, Graceful;
    if steps == [] {
    } else {
      var front, last := steps[..|steps| - 1], steps[|steps| - 1];
      DrainingStays(s, front);
      StepKeeps(End(s, front), last);
      StepKeepsDraining(End(s, front), last);
    }
  }

  // ---- what closes early sends nothing more

  /** Nothing more can be handed to the socket: it is closed, or about to be closed by the thread on the strand, and no
      write is in flight. */
  predicate Sealed(s: State) {
    && Ended(s) && s.everRan
    && (forall u :: u in s.threads && s.threads[u].Writing? ==> !s.batchOpen)
    && (s.socketOpen ==> s.strand.Some? && s.strand.value in s.threads && s.threads[s.strand.value].TearDown?)
  }

  lemma StepStaysSealed(s: State, step: Step)
    requires Inv(s) && Enabled(s, step) && Sealed(s)
    ensures Sealed(Do(s, step)) && Do(s, step).sent == s.sent && Do(s, step).accepted == s.accepted
  {
    hide Conserved, Owned, Stranded, Lifecycle, Pending, Sealed, StartEnabled, WriterEnabled, CloseEnabled, CallEnabled,
      DoStart, DoWriter, DoClose, DoCall;
    match step
    case ByStarter(t, a) => SealedStarts(s, t, a);
    case ByWriter(t, w) => SealedWrites(s, t, w);
    case ByCloser(t, c) => SealedCloses(s, t, c);
    case ByCaller(t, k) => SealedCalls(s, t, k);
  }

  lemma SealedStarts(s: State, t: Tid, a: StartStep)
    requires Lifecycle(s) && StartEnabled(s, t, a) && Sealed(s)
    ensures var r := DoStart(s, t, a); Sealed(r) && r.sent == s.sent && r.accepted == s.accepted
  {}

  lemma SealedWrites(s: State, t: Tid, w: WriterStep)
    requires WriterEnabled(s, t, w) && Sealed(s)
    ensures var r := DoWriter(s, t, w); Sealed(r) && r.sent == s.sent && r.accepted == s.accepted
  {
    hide TakeQueue;
    if w.TakeBatch? {
      SealedRound(s, t);
    }
  }

  lemma SealedRound(s: State, t: Tid)
    requires WriterEnabled(s, t, TakeBatch) && Sealed(s)
    ensures var r := TakeQueue(s, t); Sealed(r) && r.sent == s.sent && r.accepted == s.accepted
  {
    hide Total;
  }

  lemma SealedCloses(s: State, t: Tid, c: CloseStep)
    requires Stranded(s) && Lifecycle(s) && CloseEnabled(s, t, c) && Sealed(s)
    ensures var r := DoClose(s, t, c); Sealed(r) && r.sent == s.sent && r.accepted == s.accepted
  {
    hide Lifecycle, Stranded, Sealed, LookAt, WinClose, CallBack, PublishStopped;
    match c
    case LoadForClose => SealedLooks(s, t);
    case CasForClose(_) => SealedExchangeFails(s, t); SealedLooks(s, t);
    case RunTearDown => SealedTearsDown(s, t);
    case StoreStopped => SealedStops(s, t);
  }

  lemma SealedExchangeFails(s: State, t: Tid)
    requires Lifecycle(s) && Sealed(s) && t in s.threads && s.threads[t].CloseCas?
    ensures s.threads[t].expected != s.v.phase
  {}

  lemma SealedLooks(s: State, t: Tid)
    requires Sealed(s) && t in s.threads && (s.threads[t].CloseLoad? || s.threads[t].CloseCas?)
    ensures var r := LookAt(s, t, s.v.phase); Sealed(r) && r.sent == s.sent && r.accepted == s.accepted
  {}

  lemma SealedTearsDown(s: State, t: Tid)
    requires Sealed(s)
    ensures var r := CallBack(s, t); Sealed(r) && r.sent == s.sent && r.accepted == s.accepted
  {}

  lemma SealedStops(s: State, t: Tid)
    requires Sealed(s) && Stranded(s) && At(s, t, TornDown)
    ensures var r := PublishStopped(s, t); Sealed(r) && r.sent == s.sent && r.accepted == s.accepted
  {}

  lemma SealedCalls(s: State, t: Tid, k: CallStep)
    requires CallEnabled(s, t, k) && Sealed(s)
    ensures var r := DoCall(s, t, k); Sealed(r) && r.sent == s.sent && r.accepted == s.accepted
  {}

  /** After an early close no later run, graceful or not, sends another message. */
  lemma {:induction false} SealedForGood(s: State, steps: seq<Step>)
    requires Inv(s) && Sealed(s) && Path(s, steps)
    ensures var e := End(s, steps); Inv(e) && Sealed(e) && e.sent == s.sent && e.accepted == s.accepted
    decreases |steps|
  {
    hide Inv, Sealed, Do, Enabled;
    if steps == [] {
    } else {
      var front, last := steps[..|steps| - 1], steps[|steps| - 1];
      SealedForGood(s, front);
      StepKeeps(End(s, front), last);
      StepStaysSealed(End(s, front), last);
    }
  }

  // ---- when a stop drains

  /** A writer that found the queue empty before the request, and loads the state after it,
      goes on to close, with everything drained exactly when no writer has been scheduled since. */
  lemma LateCloseDrainsIff(s: State, t: Tid)
    requires Inv(s) && WriterEnabled(s, t, LoadAfterEmpty) && !s.v.phase.Running?
    ensures DoWriter(s, t, LoadAfterEmpty) == Go(s, t, CloseLoad)
    ensures Drained(s) <==> !s.v.scheduled
    ensures Drained(s) <==> |s.accepted| == s.threads[t].seen
  {
    hide Lifecycle, Pending;
    assert s.sent == s.accepted[..s.threads[t].seen];
    assert s.sent + s.v.queue == s.accepted;
  }

  lemma Extend(s: State, steps: seq<Step>, step: Step)
    requires Path(s, steps) && GracefulPath(s, steps) && Enabled(End(s, steps), step) && Graceful(End(s, steps), step)
    ensures Path(s, steps + [step]) && GracefulPath(s, steps + [step])
    ensures End(s, steps + [step]) == Do(End(s, steps), step)
  {
    hide Enabled, Do, Graceful;
    assert (steps + [step])[..|steps|] == steps;
  }

  lemma NoSteps(s: State)
    ensures Path(s, []) && GracefulPath(s, []) && End(s, []) == s
  {}

  /** The slipped writer loads the state and closes; its close runs on the strand, before the new writer can. */
  lemma SlippedCloses(s: State) returns (steps: seq<Step>)
    requires Inv(s) && s.v.phase.StopRequested? && Slipped(s)
    ensures Path(s, steps) && GracefulPath(s, steps)
    ensures var e := End(s, steps);
      && Sealed(e) && !Drained(e) && e.sent == s.sent && e.accepted == s.accepted && e.v.phase.Stopping?
      && e.v.queue == s.v.queue
  {
    hide Path, End, GracefulPath, Inv, Enabled, Do;
    var u := s.strand.value;
    NoSteps(s);
    SlippedState(s);
    SlippedSteps(s);
    CloseSteps(s, u);
    Extend(s, [], ByWriter(u, LoadAfterEmpty));
    Extend(s, [] + [ByWriter(u, LoadAfterEmpty)], ByCloser(u, LoadForClose));
    steps := [] + [ByWriter(u, LoadAfterEmpty)] + [ByCloser(u, LoadForClose)];
    Extend(s, steps, ByCloser(u, CasForClose(false)));
    steps := steps + [ByCloser(u, CasForClose(false))];
  }

  lemma SlippedState(s: State)
    requires Inv(s) && s.v.phase.StopRequested? && Slipped(s)
    ensures !Drained(s) && s.everRan && forall u :: u in s.threads ==> !s.threads[u].Writing?
  {
    hide Pending;
    LateCloseDrainsIff(s, s.strand.value);
  }

  lemma SlippedSteps(s: State)
    requires s.v.phase.StopRequested? && Slipped(s)
    ensures var u := s.strand.value;
      && Enabled(s, ByWriter(u, LoadAfterEmpty)) && Do(s, ByWriter(u, LoadAfterEmpty)) == Go(s, u, CloseLoad)
  {
    hide StartEnabled, CloseEnabled, CallEnabled, DoStart, DoClose, DoCall;
  }

  lemma CloseSteps(s: State, u: Tid)
    requires s.v.phase.StopRequested? && u in s.threads
    ensures Enabled(Go(s, u, CloseLoad), ByCloser(u, LoadForClose))
    ensures Do(Go(s, u, CloseLoad), ByCloser(u, LoadForClose)) == Go(s, u, CloseCas(StopRequested))
    ensures Enabled(Go(s, u, CloseCas(StopRequested)), ByCloser(u, CasForClose(false)))
    ensures Do(Go(s, u, CloseCas(StopRequested)), ByCloser(u, CasForClose(false))) == WinClose(s, u)
  {
    hide StartEnabled, WriterEnabled, CallEnabled, DoStart, DoWriter, DoCall;
    assert Go(Go(s, u, CloseLoad), u, CloseCas(StopRequested)) == Go(s, u, CloseCas(StopRequested));
    assert WinClose(Go(s, u, CloseCas(StopRequested)), u) == WinClose(s, u);
  }

  /** `stop_async` keeps its promise to drain, in every graceful run from there, exactly when no writer stands between
      finding the queue empty and loading the state with a message accepted since. */
  lemma StopDrainsIff(s: State, t: Tid)
    requires Inv(s) && s.v.phase.Running? && Fresh(s, t) && NoCloser(s)
    ensures var r := DoCall(s, t, Stop);
      !Slipped(s) <==>
        forall steps | Path(r, steps) && GracefulPath(r, steps) && Ended(End(r, steps)) :: Drained(End(r, steps))
  {
    hide Path, End, GracefulPath, Enabled, Do, Conserved, Owned, Pending, Drained, DoCall;
    var r := DoCall(s, t, Stop);
    CallKeeps(s, t, Stop);
    if Slipped(s) {
      SlippedStop(s, t);
      var steps := SlippedCloses(r);
    } else {
      StopBeginsDraining(s, t);
      forall steps | Path(r, steps) && GracefulPath(r, steps) && Ended(End(r, steps)) ensures Drained(End(r, steps)) {
        DrainingStays(r, steps);
      }
    }
  }

  lemma SlippedStop(s: State, t: Tid)
    requires s.v.phase.Running? && Fresh(s, t) && Slipped(s)
    ensures var r := DoCall(s, t, Stop); Slipped(r) && r.v.phase.StopRequested?
  {}

  // ---- a run that loses a message

  lemma ExtendGracefully(mark: nat, steps: seq<Step>, step: Step) returns (longer: seq<Step>)
    requires Path(Init(mark), steps) && GracefulPath(Init(mark), steps)
    requires Enabled(End(Init(mark), steps), step) && Graceful(End(Init(mark), steps), step)
    ensures Path(Init(mark), longer) && GracefulPath(Init(mark), longer)
    ensures End(Init(mark), longer) == Do(End(Init(mark), steps), step)
  {
    longer := steps + [step];
    Extend(Init(mark), steps, step);
  }

  lemma StartedRun() returns (steps: seq<Step>)
    ensures Path(Init(0), steps) && GracefulPath(Init(0), steps)
    ensures var s := End(Init(0), steps);
      && s.v == Vars(0, Running, true, true, false, [], 0, 0) && s.threads == map[0 := Finished, 1 := Reading]
      && s.strand.None? && s.socketOpen && s.accepted == s.sent == []
  {
    hide Path, End, GracefulPath, DoWriter, DoClose, DoCall, WriterEnabled, CloseEnabled, CallEnabled;
    NoSteps(Init(0));
    steps := ExtendGracefully(0, [], ByStarter(0, StartFlag));
    steps := ExtendGracefully(0, steps, ByStarter(0, StartCas));
    steps := ExtendGracefully(0, steps, ByStarter(0, StoreOwed));
    steps := ExtendGracefully(0, steps, ByStarter(0, SpawnReader(1)));
  }

  lemma FirstQueuedRun(first: Message) returns (steps: seq<Step>)
    ensures Path(Init(0), steps) && GracefulPath(Init(0), steps)
    ensures var s := End(Init(0), steps);
      && s.v.phase.Running? && s.v.mark == 0 && s.v.queue == [first] && s.strand.None? && s.socketOpen
      && s.threads == map[0 := Finished, 1 := Reading, 2 := Spawning]
      && s.accepted == [first] && s.sent == []
  {
    hide Path, End, GracefulPath, DoStart, DoClose, DoWriter, StartEnabled, CloseEnabled, WriterEnabled, StopRegion;
    steps := StartedRun();
    steps := ExtendGracefully(0, steps, ByCaller(2, Write(first)));
  }

  lemma FirstTakenRun(first: Message) returns (steps: seq<Step>)
    ensures Path(Init(0), steps) && GracefulPath(Init(0), steps)
    ensures var s := End(Init(0), steps);
      && s.v.phase.Running? && s.v.mark == 0 && s.v.queue == [] && s.strand.None? && s.batchOpen && s.socketOpen
      && s.threads == map[0 := Finished, 1 := Reading, 2 := Writing([first])]
      && s.accepted == [first] && s.sent == []
  {
    hide Path, End, GracefulPath, DoStart, DoClose, DoCall, StartEnabled, CloseEnabled, CallEnabled;
    steps := FirstQueuedRun(first);
    steps := ExtendGracefully(0, steps, ByWriter(2, SpawnWriter));
    steps := ExtendGracefully(0, steps, ByWriter(2, TakeBatch));
  }

  /** A first message is written, and its writer finds the queue empty. */
  lemma FirstSentRun(first: Message) returns (steps: seq<Step>)
    ensures Path(Init(0), steps) && GracefulPath(Init(0), steps)
    ensures var s := End(Init(0), steps);
      && s.v.phase.Running? && s.v.mark == 0 && !s.v.scheduled && s.v.queue == [] && s.strand == Some(2)
      && s.threads == map[0 := Finished, 1 := Reading, 2 := WriterEmpty(1)]
      && s.accepted == s.sent == [first]
  {
    hide Path, End, GracefulPath, DoStart, DoClose, DoCall, StartEnabled, CloseEnabled, CallEnabled;
    steps := FirstTakenRun(first);
    steps := ExtendGracefully(0, steps, ByWriter(2, BatchWritten));
    steps := ExtendGracefully(0, steps, ByWriter(2, TakeBatch));
  }

  lemma SecondAcceptedRun(first: Message, lost: Message) returns (steps: seq<Step>)
    ensures Path(Init(0), steps) && GracefulPath(Init(0), steps)
    ensures var s := End(Init(0), steps);
      && s.v.phase.StopRequested? && s.v.queue == [lost] && Slipped(s)
      && s.accepted == [first, lost] && s.sent == [first]
  {
    hide Path, End, GracefulPath, DoStart, DoClose, DoWriter, StartEnabled, CloseEnabled, WriterEnabled;
    steps := FirstSentRun(first);
    steps := ExtendGracefully(0, steps, ByCaller(3, Write(lost)));
    steps := ExtendGracefully(0, steps, ByCaller(4, Stop));
  }

  /** The drain is not promised by `stop_async` alone. A message accepted while a writer stands between finding the queue
      empty and loading the state is lost, although nobody forced the stop, no operation failed and the peer stayed: the
      session closes with it queued, and no run from there ever sends it. */
  lemma DrainCanLose(first: Message, lost: Message) returns (steps: seq<Step>)
    ensures Path(Init(0), steps) && GracefulPath(Init(0), steps)
    ensures var s := End(Init(0), steps);
      && s.v.phase.Stopping? && s.accepted == [first, lost] && s.sent == [first] && s.v.queue == [lost]
      && forall more | Path(s, more) :: End(s, more).sent == [first] && End(s, more).accepted == [first, lost]
  {
    hide Path, End, GracefulPath, Inv, Enabled, Do, Graceful, Sealed;
    var before := SecondAcceptedRun(first, lost);
    var s := End(Init(0), before);
    RunKeeps(0, before);
    var tail := SlippedCloses(s);
    Joined(Init(0), before, tail);
    steps := before + tail;
    RunKeeps(0, steps);
    var e := End(Init(0), steps);
    forall more | Path(e, more) ensures End(e, more).sent == [first] && End(e, more).accepted == [first, lost] {
      SealedForGood(e, more);
    }
  }

  lemma {:induction false} Joined(s: State, a: seq<Step>, b: seq<Step>)
    requires Path(s, a) && GracefulPath(s, a) && Path(End(s, a), b) && GracefulPath(End(s, a), b)
    ensures Path(s, a + b) && GracefulPath(s, a + b) && End(s, a + b) == End(End(s, a), b)
    decreases |b|
  {
    hide Enabled, Do, Graceful;
    if b == [] {
      assert a + b == a;
    } else {
      var front, last := b[..|b| - 1], b[|b| - 1];
      Joined(s, a, front);
      assert (a + b)[..|a + b| - 1] == a + front;
    }
  }

  // ---- exactly one teardown

  /** How far the life of the session has come. */
  function Rank(s: State): nat {
    match s.v.phase
    case Running => 1
    case StopRequested => 2
    case Stopping => 3
    case Stopped => if s.everRan then 4 else 0
  }

  lemma StepMovesForward(s: State, step: Step)
    requires Inv(s) && Enabled(s, step)
    ensures Rank(s) <= Rank(Do(s, step))
    ensures s.teardowns <= Do(s, step).teardowns && s.disconnects <= Do(s, step).disconnects
  {
    hide WriteSide, Pending, StartEnabled, WriterEnabled, CloseEnabled, CallEnabled, DoStart, DoWriter, DoClose, DoCall;
    match step
    case ByStarter(t, a) =>
      StartFrame(s, t, a);
      if s.everRan { StartLife(s, t, a); }
    case ByWriter(t, w) => WriterFrame(s, t, w);
    case ByCloser(t, c) => CloseMovesForward(s, t, c);
    case ByCaller(t, k) => CallMovesForward(s, t, k);
  }

  lemma CloseMovesForward(s: State, t: Tid, c: CloseStep)
    requires Lifecycle(s) && CloseEnabled(s, t, c)
    ensures var r := DoClose(s, t, c); Rank(s) <= Rank(r) && s.teardowns <= r.teardowns && s.disconnects <= r.disconnects
  {
    hide LookAt;
  }

  lemma CallMovesForward(s: State, t: Tid, k: CallStep)
    requires CallEnabled(s, t, k)
    ensures var r := DoCall(s, t, k); Rank(s) <= Rank(r) && s.teardowns <= r.teardowns && s.disconnects <= r.disconnects
  {
    hide Enqueue, RequestStop, WriteRegion, OnlyMoves, SameBatch;
  }

  /** Along any run the state only moves forward from running to stopped. */
  lemma {:induction false} RunMovesForward(mark: nat, steps: seq<Step>, i: nat)
    requires Path(Init(mark), steps) && i <= |steps|
    ensures Path(Init(mark), steps[..i])
    ensures Rank(End(Init(mark), steps[..i])) <= Rank(End(Init(mark), steps))
    decreases |steps|
  {
    hide Rank, Do, Enabled, Inv;
    if i == |steps| {
      assert steps[..i] == steps;
    } else {
      var init := steps[..|steps| - 1];
      assert init[..i] == steps[..i];
      RunMovesForward(mark, init, i);
      RunKeeps(mark, init);
      StepMovesForward(End(Init(mark), init), steps[|steps| - 1]);
    }
  }

  predicate InTearDown(pc: Pc) { pc.TearDown? || pc.TornDown? }

  /** However the closers race, the session is torn down at most once, and exactly once when
      it has stopped after running; `onDisconnected` fires once if the callback was owed when
      the teardown ran, and otherwise never. */
  lemma TearDownOnce(mark: nat, steps: seq<Step>)
    requires Path(Init(mark), steps)
    ensures var s := End(Init(mark), steps);
      && s.teardowns <= 1
      && (s.v.phase.Stopped? && s.everRan ==> s.teardowns == 1)
      && s.disconnects == (if s.teardowns == 1 && s.owedAtTeardown then 1 else 0)
      && (forall t, u :: t in s.threads && u in s.threads && InTearDown(s.threads[t]) && InTearDown(s.threads[u]) ==> t == u)
  {
    hide Path, End, WriteSide, Pending;
    RunKeeps(mark, steps);
  }
}
