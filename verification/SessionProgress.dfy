/** What a session gets done: which writes it takes, and that a close begun by anyone can always be completed. */
module SessionProgress {
  import opened SessionVars
  import opened SessionProtocol

  // ---- which writes are taken

  /** The bytes waiting, in the queue and in the batch being written. */
  function Waiting(s: State): nat { Total(s.v.queue) + Total(s.batch) }

  /** A message is accepted, at the end of the queue, exactly when the session runs and is under its mark; a writer is
      spawned for it exactly when none is at work. Otherwise the call changes nothing. */
  lemma WriteAcceptsIff(s: State, t: Tid, msg: Message)
    requires Inv(s) && Fresh(s, t)
    ensures var r := DoCall(s, t, Write(msg));
      if s.v.phase.Running? && (s.v.mark == 0 || Waiting(s) < s.v.mark) then
        && r.accepted == s.accepted + [msg] && r.v.queue == s.v.queue + [msg] && r.v.scheduled
        && r.threads[t] == (if s.owner.None? then Spawning else Finished)
        && r.sent == s.sent && r.batch == s.batch && r.v.phase == s.v.phase
      else
        r == Go(s, t, Finished)
  {
    hide Conserved, Owned, Stranded, CloseSide, WriteRegion, Enqueue, Waiting, Go;
    BytesWaiting(s);
    OwnerScheduled(s);
    RegionTakes(s.v, msg);
    if WriteRegion(s.v, msg).1.Queued? {
      EnqueueTakes(s, t, msg);
    }
  }

  lemma OwnerScheduled(s: State)
    requires Owned(s)
    ensures s.v.scheduled <==> s.owner.Some?
  {}

  lemma BytesWaiting(s: State)
    requires Conserved(s)
    ensures s.v.queuedBytes + s.v.writingBytes == Waiting(s)
  {
    hide Total, Largest;
  }

  lemma RegionTakes(v: Vars, msg: Message)
    ensures WriteRegion(v, msg).1.Queued? <==> v.phase.Running? && (v.mark == 0 || v.queuedBytes + v.writingBytes < v.mark)
  {}

  lemma EnqueueTakes(s: State, t: Tid, msg: Message)
    requires WriteRegion(s.v, msg).1.Queued?
    ensures var r := Enqueue(s, t, msg);
      && r.accepted == s.accepted + [msg] && r.v.queue == s.v.queue + [msg] && r.v.scheduled
      && t in r.threads && r.threads[t] == (if s.v.scheduled then Finished else Spawning)
      && r.sent == s.sent && r.batch == s.batch && r.v.phase == s.v.phase
  {
    hide OnlyMoves;
  }

  /** No message is too long for an idle session, whatever the mark. */
  lemma IdleAccepts(s: State, t: Tid, msg: Message)
    requires Inv(s) && Fresh(s, t) && s.v.phase.Running? && Drained(s) && s.v.writingBytes == 0
    ensures DoCall(s, t, Write(msg)).accepted == s.accepted + [msg]
  {
    hide Owned, Stranded, CloseSide, Largest, DoCall;
    WriteAcceptsIff(s, t, msg);
  }

  /** A stop takes effect exactly on a running session, and leaves what was accepted, sent and queued as it was. */
  lemma StopTakes(s: State, t: Tid)
    requires CallEnabled(s, t, Stop)
    ensures var r := DoCall(s, t, Stop);
      && r.v.phase == (if s.v.phase.Running? then StopRequested else s.v.phase)
      && SameBatch(s, r) && r.v.owed == s.v.owed && r.socketOpen == s.socketOpen
  {}

  // ---- the socket stays open until the teardown

  predicate Open(s: State) {
    !Ended(s) ==> s.socketOpen && forall u :: u in s.threads && s.threads[u].Writing? ==> s.batchOpen
  }

  lemma StepStaysOpen(s: State, step: Step)
    requires Lifecycle(s) && Open(s) && Enabled(s, step)
    ensures Open(Do(s, step))
  {
    hide StartEnabled, WriterEnabled, CloseEnabled, CallEnabled, DoStart, DoWriter, DoClose, DoCall, Lifecycle;
    match step
    case ByStarter(t, a) => StartStaysOpen(s, t, a);
    case ByWriter(t, w) => WriterStaysOpen(s, t, w);
    case ByCloser(t, c) => CloseStaysOpen(s, t, c);
    case ByCaller(t, k) => CallStaysOpen(s, t, k);
  }

  /** A thread that does not begin to write changes nothing about it. */
  lemma MoveStaysOpen(s: State, r: State, t: Tid)
    requires Open(s) && OnlyMoves(s, r, t) && r.v.phase == s.v.phase && r.everRan == s.everRan
    requires r.socketOpen == s.socketOpen && r.batchOpen == s.batchOpen && !r.threads[t].Writing?
    ensures Open(r)
  {}

  lemma StartStaysOpen(s: State, t: Tid, a: StartStep)
    requires Lifecycle(s) && Open(s) && StartEnabled(s, t, a)
    ensures Open(DoStart(s, t, a))
  {
    hide OnlyMoves, SameBatch, SameLife;
  }

  lemma WriterStaysOpen(s: State, t: Tid, w: WriterStep)
    requires Open(s) && WriterEnabled(s, t, w)
    ensures Open(DoWriter(s, t, w))
  {
    hide SameBatch, Open, TakeQueue;
    if w.TakeBatch? {
      RoundStaysOpen(s, t);
    } else {
      MoveStaysOpen(s, DoWriter(s, t, w), t);
    }
  }

  lemma RoundStaysOpen(s: State, t: Tid)
    requires Open(s) && At(s, t, WriterReady)
    ensures Open(TakeQueue(s, t))
  {
    hide Total, SameBatch;
    var r := TakeQueue(s, t);
    if s.v.queue == [] {
      MoveStaysOpen(s, r, t);
    }
  }

  lemma CloseStaysOpen(s: State, t: Tid, c: CloseStep)
    requires Lifecycle(s) && Open(s) && CloseEnabled(s, t, c)
    ensures Open(DoClose(s, t, c))
  {
    hide OnlyMoves, SameBatch;
  }

  lemma GoStaysOpen(s: State, t: Tid, pc: Pc)
    requires Open(s) && !pc.Writing?
    ensures Open(Go(s, t, pc)) && Open(GoOn(s, t, pc))
  {}

  lemma EnqueueStaysOpen(s: State, t: Tid, msg: Message)
    requires Open(s)
    ensures Open(Enqueue(s, t, msg))
  {
    hide Open, WriteRegion, SameLife;
    assert Enqueue(s, t, msg).v.phase == s.v.phase by { EnqueueLives(s, t, msg); }
    MoveStaysOpen(s, Enqueue(s, t, msg), t);
  }

  lemma EnqueueLives(s: State, t: Tid, msg: Message)
    ensures Enqueue(s, t, msg).v.phase == s.v.phase
  {
    hide Enqueue;
  }

  lemma StopStaysOpen(s: State, t: Tid)
    requires Open(s) && s.v.phase.Running?
    ensures Open(RequestStop(s, t))
  {
    hide SameBatch;
  }

  lemma CallStaysOpen(s: State, t: Tid, k: CallStep)
    requires Open(s) && CallEnabled(s, t, k)
    ensures Open(DoCall(s, t, k))
  {
    hide Open, WriteRegion, RequestStop, Enqueue, CallEnabled, Go, GoOn, SameBatch, SameLife, OnlyMoves;
    match k
    case Write(msg) => EnqueueStaysOpen(s, t, msg); GoStaysOpen(s, t, Finished);
    case Stop => if s.v.phase.Running? { StopStaysOpen(s, t); } else { GoStaysOpen(s, t, Finished); }
    case ForceStop => GoStaysOpen(s, t, CloseLoad);
    case ReaderEnds => GoStaysOpen(s, t, CloseLoad);
  }

  /** In every reachable state that has not begun to close. */
  lemma {:induction false} RunStaysOpen(mark: nat, steps: seq<Step>)
    requires Path(Init(mark), steps)
    ensures Open(End(Init(mark), steps))
    decreases |steps|
  {
    hide WriteSide, Pending, Lifecycle, Open, Enabled, Do;
    if steps == [] {
      assert Open(Init(mark)) by { StartsOpen(mark); }
    } else {
      RunStaysOpen(mark, steps[..|steps| - 1]);
      RunKeeps(mark, steps[..|steps| - 1]);
      StepStaysOpen(End(Init(mark), steps[..|steps| - 1]), steps[|steps| - 1]);
    }
  }

  lemma StartsOpen(mark: nat)
    ensures Open(Init(mark))
  {}

  // ---- a close begun is completed

  /** `t` owes a close that nothing can call off. */
  predicate Pressing(s: State, t: Tid) {
    && Closable(s.v.phase) && t in s.threads && Owes(s.threads[t])
    && (s.v.phase.StopRequested? || s.threads[t].CloseLoad? || s.threads[t].CloseCas?)
  }

  /** The step a thread takes next by itself. */
  function OwnStep(s: State, t: Tid): Step
    requires t in s.threads && (Owes(s.threads[t]) || OnStrand(s.threads[t]))
  {
    match s.threads[t]
    case Spawning => ByWriter(t, SpawnWriter)
    case WriterReady => ByWriter(t, TakeBatch)
    case WriterEmpty(_) => ByWriter(t, LoadAfterEmpty)
    case Writing(_) => ByWriter(t, BatchWritten)
    case CloseLoad => ByCloser(t, LoadForClose)
    case CloseCas(_) => ByCloser(t, CasForClose(false))
    case TearDown => ByCloser(t, RunTearDown)
    case TornDown => ByCloser(t, StoreStopped)
  }

  /** Its steps before it leaves the strand, or the session begins to close. */
  function OffStrand(s: State, u: Tid): nat {
    if u !in s.threads then 0
    else match s.threads[u]
    case WriterReady => 5
    case WriterEmpty(_) => 4
    case CloseLoad => 3
    case CloseCas(p) => if p == s.v.phase then 1 else 2
    case TearDown => 2
    case TornDown => 1
    case _ => 0
  }

  /** Who has to close: `t` until someone has won the right to, then the winner. */
  function Target(s: State, t: Tid): Tid { if s.closer.Some? then s.closer.value else t }

  /** Who moves next: the thread on the strand, which keeps the others off it, or else the one that has to close. */
  function Mover(s: State, t: Tid): Tid { if s.strand.Some? then s.strand.value else Target(s, t) }

  predicate Going(s: State, t: Tid) { Pressing(s, t) || s.v.phase.Stopping? }

  /** Steps away from the next phase: of the thread on the strand, and then of the one that has to close. */
  function Away(s: State, t: Tid): nat {
    (if s.strand.Some? && s.strand != Some(Target(s, t)) then 1 + OffStrand(s, s.strand.value) else 0) +
    (if s.closer.Some? then OffStrand(s, s.closer.value) else if t in s.threads then Distance(s, t) else 0)
  }

  /** Nothing is accepted, and a teardown in between finds the callback as it is owed now. */
  predicate Quietly(s: State, r: State) { r.v.owed == s.v.owed && r.accepted == s.accepted && KeepsOwed(s, r) }

  predicate MoverReady(s: State, t: Tid) {
    var u := Mover(s, t);
    u in s.threads && (Owes(s.threads[u]) || OnStrand(s.threads[u])) && Enabled(s, OwnStep(s, u))
  }

  lemma MoverCan(s: State, t: Tid)
    requires Inv(s) && Open(s) && Going(s, t)
    ensures MoverReady(s, t)
  {
    hide Conserved, Pending;
  }

  // Before the session begins to close: the thread on the strand steps aside, or closes itself.

  predicate Nearer(s: State, r: State, t: Tid) {
    r.v.phase.Stopping? || (Pressing(r, t) && r.v.phase == s.v.phase && Away(r, t) < Away(s, t))
  }

  /** The thread on the strand has come nearer to leaving it, or has left it. */
  predicate Aside(s: State, r: State, u: Tid) {
    && (r.strand.None? || (r.strand == Some(u) && OffStrand(r, u) < OffStrand(s, u)))
    && OnlyMoves(s, r, u) && r.closer == s.closer && r.v.phase == s.v.phase
    && (r.v.queue == s.v.queue || r.v.queue == [])
  }

  lemma AsideIsNearer(s: State, r: State, t: Tid, u: Tid)
    requires Pressing(s, t) && s.closer.None? && s.strand == Some(u) && u != t && Aside(s, r, u)
    ensures Nearer(s, r, t)
  {
    hide OffStrand;
    assert Distance(r, t) <= Distance(s, t);
  }

  lemma RoundAside(s: State, u: Tid)
    requires s.strand == Some(u) && At(s, u, WriterReady)
    ensures Aside(s, TakeQueue(s, u), u)
  {
    hide Total, SameBatch, SameLife;
  }

  lemma EmptyAside(s: State, u: Tid)
    requires s.strand == Some(u) && u in s.threads && s.threads[u].WriterEmpty?
    ensures Aside(s, LeaveEmpty(s, u), u)
  {
    hide SameBatch, SameLife;
  }

  lemma LookAside(s: State, u: Tid)
    requires s.strand == Some(u) && u in s.threads
    requires s.threads[u].CloseLoad? || (s.threads[u].CloseCas? && s.threads[u].expected != s.v.phase)
    ensures Aside(s, LookAt(s, u, s.v.phase), u)
  {
    hide SameBatch, SameLife, OnlyMoves;
  }

  lemma BeforeTearDown(s: State)
    requires Stranded(s) && Lifecycle(s) && s.closer.None? && s.strand.Some?
    ensures var u := s.strand.value; u in s.threads && OnStrand(s.threads[u]) && !InTearDown(s.threads[u])
  {}

  lemma StepsAside(s: State, t: Tid)
    requires Inv(s) && Pressing(s, t) && s.closer.None? && s.strand.Some? && s.strand.value != t && MoverReady(s, t)
    ensures Nearer(s, Do(s, OwnStep(s, Mover(s, t))), t)
  {
    hide Conserved, Owned, Stranded, Lifecycle, Pending, Nearer, TakeQueue, LeaveEmpty, LookAt, Pressing, Aside, Enabled;
    hide WriterEnabled, CloseEnabled, StartEnabled, CallEnabled, SameBatch, SameLife;
    var u := s.strand.value;
    var r := Do(s, OwnStep(s, u));
    BeforeTearDown(s);
    match s.threads[u]
    case WriterReady => RoundAside(s, u); AsideIsNearer(s, r, t, u);
    case WriterEmpty(_) => EmptyAside(s, u); AsideIsNearer(s, r, t, u);
    case CloseLoad => LookAside(s, u); AsideIsNearer(s, r, t, u);
    case CloseCas(p) => if p == s.v.phase { WinEnds(s, u); assert Nearer(s, r, t) by { StoppingIsNearer(s, r, t); } }
      else { LookAside(s, u); AsideIsNearer(s, r, t, u); }
    case _ => assert false;
  }

  lemma StoppingIsNearer(s: State, r: State, t: Tid)
    requires r.v.phase.Stopping?
    ensures Nearer(s, r, t)
  {}

  // Before that: the one that owes the close takes its own steps.

  lemma OwnStrand(s: State, t: Tid)
    requires t in s.threads && Owes(s.threads[t]) && Enabled(s, OwnStep(s, t))
    requires s.strand.None? || s.strand == Some(t)
    ensures var r := Do(s, OwnStep(s, t)); r.strand.None? || r.strand == Some(t)
    ensures var r := Do(s, OwnStep(s, t)); Closable(s.v.phase) ==> r.v.phase == s.v.phase || r.v.phase.Stopping?
  {
    hide DoWriter, DoClose, DoStart, DoCall, WriterEnabled, CloseEnabled, StartEnabled, CallEnabled;
    var step := OwnStep(s, t);
    if step.ByWriter? {
      WriterStrand(s, t, step.w);
    } else {
      CloserStrand(s, t, step.c);
    }
  }

  lemma WriterStrand(s: State, t: Tid, w: WriterStep)
    requires WriterEnabled(s, t, w) && (s.strand.None? || s.strand == Some(t))
    ensures var r := DoWriter(s, t, w); (r.strand.None? || r.strand == Some(t)) && r.v.phase == s.v.phase
  {
    hide Go, TakeQueue, LeaveEmpty, FinishBatch, LoseBatch, SameBatch, OnlyMoves;
    match w
    case SpawnWriter => MovesStrand(s, t, WriterReady);
    case TakeBatch => RoundFrame(s, t);
    case LoadAfterEmpty => LeavesStrandTo(s, t);
    case BatchWritten => EndsBatchOn(s, t, s.threads[t].batch);
    case BatchFails => EndsBatchOn(s, t, s.threads[t].batch);
  }

  lemma LeavesStrandTo(s: State, t: Tid)
    requires s.strand.None? || s.strand == Some(t)
    ensures var r := LeaveEmpty(s, t); r.strand.None? || r.strand == Some(t)
  {
    hide Go, GoOff, SameBatch, SameLife, OnlyMoves;
    MovesStrand(s, t, CloseLoad);
    MovesStrand(s, t, Finished);
  }

  lemma EndsBatchOn(s: State, t: Tid, batch: seq<Message>)
    ensures FinishBatch(s, t, batch).strand == Some(t) && LoseBatch(s, t).strand == Some(t)
  {
    hide Go, SameBatch, SameLife, OnlyMoves;
  }

  lemma RoundFrame(s: State, t: Tid)
    ensures var r := TakeQueue(s, t); r.strand.None? || r.strand == Some(t)
    ensures Quietly(s, TakeQueue(s, t))
  {
    hide Total, SameBatch, OnlyMoves;
  }

  lemma CloserStrand(s: State, t: Tid, c: CloseStep)
    requires CloseEnabled(s, t, c) && (c.LoadForClose? || c.CasForClose?) && (s.strand.None? || s.strand == Some(t))
    ensures var r := DoClose(s, t, c);
      && (r.strand.None? || r.strand == Some(t))
      && (r.v.phase == s.v.phase || r.v.phase.Stopping?)
  {
    hide SameBatch, OnlyMoves, LookAt, WinClose, Exchange;
    WinStrand(s, t);
    LookStrand(s, t, s.v.phase);
    assert c.CasForClose? ==> Exchange(s.v, s.threads[t].expected, Stopping).2 == s.v.phase by { SeenIsPhase(s.v); }
  }

  lemma SeenIsPhase(v: Vars)
    ensures forall p, q :: Exchange(v, p, q).2 == v.phase
  {}

  lemma WinStrand(s: State, t: Tid)
    requires s.strand.None? || s.strand == Some(t)
    ensures var r := WinClose(s, t); r.strand == s.strand && r.v.phase.Stopping?
  {
    hide SameBatch, OnlyMoves;
  }

  lemma LookStrand(s: State, t: Tid, p: Phase)
    requires s.strand.None? || s.strand == Some(t)
    ensures var r := LookAt(s, t, p); (r.strand.None? || r.strand == Some(t)) && r.v.phase == s.v.phase
  {
    hide SameBatch, OnlyMoves, SameLife, Go, GoOff;
    MovesStrand(s, t, CloseCas(p));
    MovesStrand(s, t, Finished);
  }

  lemma MovesStrand(s: State, t: Tid, pc: Pc)
    ensures Go(s, t, pc).strand == s.strand && Go(s, t, pc).v == s.v
    ensures GoOff(s, t, pc).strand.None? && GoOff(s, t, pc).v == s.v
  {}

  lemma RunningCloses(s: State, t: Tid)
    requires s.v.phase.Running? && t in s.threads && (s.threads[t].CloseLoad? || s.threads[t].CloseCas?)
    requires Enabled(s, OwnStep(s, t))
    ensures var r := Do(s, OwnStep(s, t));
      r.v.phase.Stopping? || (Pressing(r, t) && r.v.phase.Running? && Distance(r, t) < Distance(s, t))
  {
    hide SameBatch, SameLife, OnlyMoves;
  }

  lemma StepsItself(s: State, t: Tid)
    requires Inv(s) && Pressing(s, t) && (s.strand.None? || s.strand == Some(t))
    requires Enabled(s, OwnStep(s, t)) && Inv(Do(s, OwnStep(s, t)))
    ensures Nearer(s, Do(s, OwnStep(s, t)), t)
  {
    hide Conserved, Owned, Stranded, Pending, Enabled, Do, Distance, Owes;
    assert Owes(s.threads[t]);
    OwnStrand(s, t);
    if s.v.phase.Running? {
      RunningCloses(s, t);
    } else {
      OwnStepPaysDebt(s, OwnStep(s, t));
    }
  }

  // While it closes: the thread on the strand steps aside, and the winner tears down.

  predicate NearerStopped(s: State, r: State, t: Tid) {
    (r.v.phase.Stopped? && r.everRan) || (r.v.phase.Stopping? && Away(r, t) < Away(s, t))
  }

  lemma AsideIsNearerStopped(s: State, r: State, t: Tid, u: Tid)
    requires s.v.phase.Stopping? && s.closer.Some? && s.closer.value in s.threads
    requires s.strand == Some(u) && u != s.closer.value && InTearDown(s.threads[s.closer.value]) && Aside(s, r, u)
    ensures NearerStopped(s, r, t)
  {}

  lemma WinnerTearsDown(s: State, t: Tid)
    requires Lifecycle(s) && s.v.phase.Stopping? && (s.strand.None? || s.strand == s.closer)
    requires s.closer.Some? && s.closer.value in s.threads && InTearDown(s.threads[s.closer.value])
    requires Enabled(s, OwnStep(s, s.closer.value))
    ensures NearerStopped(s, Do(s, OwnStep(s, s.closer.value)), t)
  {
    hide Lifecycle, NearerStopped, CallBack, PublishStopped, WriterEnabled, CloseEnabled, StartEnabled, CallEnabled;
    if s.threads[s.closer.value].TearDown? {
      CallsBack(s, t, s.closer.value);
    } else {
      PublishesStopped(s, t, s.closer.value);
    }
  }

  lemma CallsBack(s: State, t: Tid, c: Tid)
    requires s.v.phase.Stopping? && s.closer == Some(c) && At(s, c, TearDown) && (s.strand.None? || s.strand == Some(c))
    ensures NearerStopped(s, CallBack(s, c), t)
  {
    hide SameBatch, OnlyMoves;
  }

  lemma PublishesStopped(s: State, t: Tid, c: Tid)
    requires Lifecycle(s) && s.v.phase.Stopping?
    ensures NearerStopped(s, PublishStopped(s, c), t)
  {
    hide SameBatch, OnlyMoves;
  }

  lemma CloserTearsDown(s: State)
    requires Stranded(s) && Lifecycle(s) && s.v.phase.Stopping?
    ensures s.closer.Some? && s.closer.value in s.threads && InTearDown(s.threads[s.closer.value])
    ensures s.strand.Some? && s.strand != s.closer ==>
      var u := s.strand.value;
      && u in s.threads && OnStrand(s.threads[u]) && !InTearDown(s.threads[u])
      && (s.threads[u].CloseCas? ==> s.threads[u].expected != s.v.phase)
  {}

  lemma StepsToStopped(s: State, t: Tid)
    requires Inv(s) && s.v.phase.Stopping? && MoverReady(s, t)
    ensures NearerStopped(s, Do(s, OwnStep(s, Mover(s, t))), t)
  {
    hide Conserved, Owned, Stranded, Lifecycle, Pending, NearerStopped, TakeQueue, LeaveEmpty, LookAt, Aside, Enabled;
    hide WriterEnabled, CloseEnabled, StartEnabled, CallEnabled, SameBatch, SameLife;
    CloserTearsDown(s);
    if s.strand.None? || s.strand == s.closer {
      WinnerTearsDown(s, t);
    } else {
      var u := s.strand.value;
      var r := Do(s, OwnStep(s, u));
      match s.threads[u]
      case WriterReady => RoundAside(s, u); AsideIsNearerStopped(s, r, t, u);
      case WriterEmpty(_) => EmptyAside(s, u); AsideIsNearerStopped(s, r, t, u);
      case CloseLoad => LookAside(s, u); AsideIsNearerStopped(s, r, t, u);
      case CloseCas(p) => LookAside(s, u); AsideIsNearerStopped(s, r, t, u);
      case _ => assert false;
    }
  }

  lemma StepsQuietly(s: State, u: Tid)
    requires u in s.threads && (Owes(s.threads[u]) || OnStrand(s.threads[u])) && Enabled(s, OwnStep(s, u))
    ensures Quietly(s, Do(s, OwnStep(s, u)))
    ensures Graceful(s, OwnStep(s, u)) && (OwnStep(s, u).ByWriter? || OwnStep(s, u).ByCloser?)
  {
    hide DoWriter, DoClose, DoStart, DoCall, WriterEnabled, CloseEnabled, StartEnabled, CallEnabled, Quietly;
    if OwnStep(s, u).ByWriter? {
      WritesQuietly(s, u, OwnStep(s, u).w);
    } else {
      ClosesQuietly(s, u, OwnStep(s, u).c);
    }
  }

  lemma WritesQuietly(s: State, t: Tid, w: WriterStep)
    requires WriterEnabled(s, t, w)
    ensures Quietly(s, DoWriter(s, t, w))
  {
    hide Quietly, Go, TakeQueue, LeaveEmpty, FinishBatch, LoseBatch, SameBatch, SameLife, OnlyMoves;
    match w
    case SpawnWriter => MovesQuietly(s, t, WriterReady);
    case TakeBatch => RoundFrame(s, t);
    case LoadAfterEmpty => LeavesQuietly(s, t);
    case BatchWritten => EndsBatchQuietly(s, t, s.threads[t].batch);
    case BatchFails => EndsBatchQuietly(s, t, s.threads[t].batch);
  }

  lemma MovesQuietly(s: State, t: Tid, pc: Pc)
    ensures Quietly(s, Go(s, t, pc)) && Quietly(s, GoOn(s, t, pc)) && Quietly(s, GoOff(s, t, pc))
  {}

  lemma LeavesQuietly(s: State, t: Tid)
    ensures Quietly(s, LeaveEmpty(s, t))
  {
    hide Quietly, Go, GoOff, SameBatch, SameLife, OnlyMoves;
    MovesQuietly(s, t, Finished);
    MovesQuietly(s, t, CloseLoad);
  }

  lemma EndsBatchQuietly(s: State, t: Tid, batch: seq<Message>)
    ensures Quietly(s, FinishBatch(s, t, batch)) && Quietly(s, LoseBatch(s, t))
  {
    hide SameBatch, SameLife, OnlyMoves;
  }

  lemma ClosesQuietly(s: State, t: Tid, c: CloseStep)
    requires CloseEnabled(s, t, c)
    ensures Quietly(s, DoClose(s, t, c))
  {
    hide Quietly, SameBatch, SameLife, OnlyMoves, LookAt, WinClose, CallBack, PublishStopped, Exchange;
    match c
    case LoadForClose => LookQuietly(s, t, s.v.phase);
    case CasForClose(_) => WinQuietly(s, t); LookQuietly(s, t, Exchange(s.v, s.threads[t].expected, Stopping).2);
    case RunTearDown => TearDownQuietly(s, t);
    case StoreStopped => TearDownQuietly(s, t);
  }

  lemma LookQuietly(s: State, t: Tid, p: Phase)
    ensures Quietly(s, LookAt(s, t, p))
  {
    hide Quietly, Go, GoOff, SameBatch, SameLife, OnlyMoves;
    MovesQuietly(s, t, CloseCas(p));
    MovesQuietly(s, t, Finished);
  }

  lemma WinQuietly(s: State, t: Tid)
    ensures Quietly(s, WinClose(s, t))
  {
    hide SameBatch, OnlyMoves;
  }

  lemma TearDownQuietly(s: State, t: Tid)
    ensures Quietly(s, CallBack(s, t)) && Quietly(s, PublishStopped(s, t))
  {
    hide SameBatch, OnlyMoves;
  }

  // Together.

  function PhasesLeft(s: State): nat { if s.v.phase.Stopping? then 1 else 2 }

  predicate Finishing(steps: seq<Step>) { forall step :: step in steps ==> step.ByWriter? || step.ByCloser? }

  lemma MoverAdvances(s: State, t: Tid)
    requires Inv(s) && Open(s) && Going(s, t)
    ensures MoverReady(s, t)
    ensures var step := OwnStep(s, Mover(s, t));
      var r := Do(s, step);
      && Inv(r) && Open(r) && Quietly(s, r) && Graceful(s, step) && (step.ByWriter? || step.ByCloser?)
      && ((Ended(r) && r.v.phase.Stopped?) ||
          (Going(r, t) && (PhasesLeft(r) < PhasesLeft(s) || (PhasesLeft(r) == PhasesLeft(s) && Away(r, t) < Away(s, t)))))
  {
    hide Conserved, Owned, Stranded, Pending, Enabled, Do, Away, Pressing, Quietly, Graceful, Open;
    MoverCan(s, t);
    var step := OwnStep(s, Mover(s, t));
    StepKeeps(s, step);
    StepStaysOpen(s, step);
    StepsQuietly(s, Mover(s, t));
    if s.v.phase.Stopping? {
      StepsToStopped(s, t);
    } else {
      NobodyCloses(s, t);
      if s.strand.Some? && s.strand.value != t {
        StepsAside(s, t);
      } else {
        StepsItself(s, t);
      }
    }
  }

  lemma NobodyCloses(s: State, t: Tid)
    requires Lifecycle(s) && Pressing(s, t)
    ensures s.closer.None?
  {}

  /** Whoever owes the close of a session that still runs, or is asked to stop and owes it, can have it completed: steps
      of the session's own writer and closers alone, none of them a failure, lead to `Stopped`. The teardown has run, and
      `onDisconnected` with it exactly when it was owed. */
  lemma CloseCompletes(s: State, t: Tid) returns (steps: seq<Step>)
    requires Inv(s) && Open(s) && Going(s, t)
    ensures Path(s, steps) && GracefulPath(s, steps) && Finishing(steps)
    ensures var e := End(s, steps);
      && Inv(e) && e.v.phase.Stopped? && Ended(e) && e.accepted == s.accepted && e.teardowns == 1
      && e.disconnects == (if s.teardowns == 0 then One(s.v.owed) else s.disconnects)
    decreases PhasesLeft(s), Away(s, t)
  {
    hide Inv, Open, Path, End, GracefulPath, Enabled, Do, Away, Pressing, Graceful, Going, OwnStep;
    MoverAdvances(s, t);
    var step := OwnStep(s, Mover(s, t));
    var r := Do(s, step);
    NoSteps(s);
    Extend(s, [], step);
    assert [] + [step] == [step];
    if r.v.phase.Stopped? && Ended(r) {
      steps := [step];
      TornDownAt(r);
    } else {
      var rest := CloseCompletes(r, t);
      Joined(s, [step], rest);
      steps := [step] + rest;
    }
    TeardownCount(s);
    TeardownCount(r);
  }

  lemma TornDownAt(s: State)
    requires Inv(s) && Ended(s) && s.v.phase.Stopped?
    ensures s.teardowns == 1 && s.disconnects == One(s.owedAtTeardown)
  {
    hide WriteSide, Pending;
  }

  lemma TeardownCount(s: State)
    requires Inv(s)
    ensures s.teardowns <= 1 && s.disconnects == One(s.teardowns == 1 && s.owedAtTeardown)
  {
    hide WriteSide, Pending;
  }

  // ---- who begins a close

  /** A stop of a running session can be carried through without a failure; from the condition of the drain theorem, with
      everything accepted sent. */
  lemma StopCompletes(s: State, t: Tid) returns (steps: seq<Step>)
    requires Inv(s) && Open(s) && s.v.phase.Running? && CallEnabled(s, t, Stop)
    ensures var r := DoCall(s, t, Stop);
      && Path(r, steps) && GracefulPath(r, steps) && Finishing(steps)
      && var e := End(r, steps);
      && e.v.phase.Stopped? && e.teardowns == 1 && e.disconnects == One(s.v.owed) && e.accepted == s.accepted
      && (Fresh(s, t) && NoCloser(s) && !Slipped(s) ==> Drained(e))
  {
    hide Inv, Open, Path, End, GracefulPath, Enabled, Do, Finishing, CallEnabled, Slipped, NoCloser, Drained, DoCall;
    var r := DoCall(s, t, Stop);
    assert r == Do(s, ByCaller(t, Stop)) && Enabled(s, ByCaller(t, Stop)) by { CallerStep(s, t, Stop); }
    StepKeeps(s, ByCaller(t, Stop));
    Opened(s, ByCaller(t, Stop));
    RequestedPresses(s, t);
    steps := CloseCompletes(r, r.debtor);
    if Fresh(s, t) && NoCloser(s) && !Slipped(s) {
      StopDrainsIff(s, t);
      assert Drained(End(r, steps));
    }
  }

  lemma CallerStep(s: State, t: Tid, k: CallStep)
    requires CallEnabled(s, t, k)
    ensures Enabled(s, ByCaller(t, k)) && Do(s, ByCaller(t, k)) == DoCall(s, t, k)
  {}

  lemma Opened(s: State, step: Step)
    requires Inv(s) && Open(s) && Enabled(s, step)
    ensures Open(Do(s, step))
  {
    hide WriteSide, Pending, Lifecycle, Open, Enabled, Do;
    StepStaysOpen(s, step);
  }

  lemma RequestedPresses(s: State, t: Tid)
    requires Inv(s) && s.v.phase.Running? && CallEnabled(s, t, Stop) && Inv(DoCall(s, t, Stop))
    ensures var r := DoCall(s, t, Stop); Going(r, r.debtor) && r.teardowns == 0 && r.v.owed == s.v.owed
    ensures DoCall(s, t, Stop).accepted == s.accepted
  {
    hide WriteSide, OnlyMoves;
  }

  /** A caller can force a close at any time; a read or write can fail whenever the strand is free, and a start before and
      in `onConnected`. */
  lemma AnythingCanFail(s: State, t: Tid)
    ensures Fresh(s, t) ==> CallEnabled(s, t, ForceStop) && CallEnabled(s, t, Stop)
    ensures t in s.threads && s.strand.None? ==>
      && (s.threads[t].Reading? ==> CallEnabled(s, t, ReaderEnds))
      && (s.threads[t].Writing? ==> WriterEnabled(s, t, BatchFails))
    ensures At(s, t, Setup) ==> StartEnabled(s, t, SetupFails)
    ensures At(s, t, Connected) ==> StartEnabled(s, t, CallbackFails)
  {}

  /** So can one forced by a caller, by the peer or a read that ends, or by a write that fails. */
  lemma ForcedCompletes(s: State, step: Step) returns (steps: seq<Step>)
    requires Inv(s) && Open(s) && Closable(s.v.phase) && Enabled(s, step)
    requires (step.ByCaller? && (step.k.ForceStop? || step.k.ReaderEnds?)) || (step.ByWriter? && step.w.BatchFails?)
    ensures var r := Do(s, step);
      && Path(r, steps) && Finishing(steps)
      && var e := End(r, steps);
      && e.v.phase.Stopped? && e.teardowns == 1 && e.disconnects == One(s.v.owed) && e.accepted == s.accepted
  {
    hide Inv, Open, Path, End, GracefulPath, Finishing;
    var r := Do(s, step);
    StepKeeps(s, step);
    Opened(s, step);
    ForcedPresses(s, step);
    steps := CloseCompletes(r, step.t);
  }

  lemma ForcedPresses(s: State, step: Step)
    requires Inv(s) && Closable(s.v.phase) && Enabled(s, step)
    requires (step.ByCaller? && (step.k.ForceStop? || step.k.ReaderEnds?)) || (step.ByWriter? && step.w.BatchFails?)
    ensures var r := Do(s, step);
      Going(r, step.t) && r.teardowns == 0 && r.v.owed == s.v.owed && r.accepted == s.accepted
  {
    hide WriteSide, Pending, OnlyMoves;
  }

  /** And so can one that follows a start that failed while the session ran. */
  lemma FailedStartCompletes(s: State, t: Tid, a: StartStep) returns (steps: seq<Step>)
    requires Inv(s) && Open(s) && s.v.phase.Running? && StartEnabled(s, t, a) && (a.SetupFails? || a.CallbackFails?)
    ensures var r := DoStart(s, t, a);
      && CallEnabled(r, t, Stop) && var r' := DoCall(r, t, Stop);
      && Path(r', steps) && GracefulPath(r', steps) && Finishing(steps)
      && var e := End(r', steps);
      && e.v.phase.Stopped? && e.teardowns == 1 && e.disconnects == One(s.v.owed)
  {
    hide Inv, Open, Path, End, GracefulPath, Finishing, DoCall;
    StartKeeps(s, t, a);
    Opened(s, ByStarter(t, a));
    steps := StopCompletes(DoStart(s, t, a), t);
  }

  // ---- the callback owed

  /** The callback owed stays owed, and a teardown goes by what is owed when it runs. */
  predicate KeepsOwed(s: State, r: State) {
    && (s.v.owed ==> r.v.owed) && s.teardowns <= r.teardowns
    && r.owedAtTeardown == (if r.teardowns > s.teardowns then s.v.owed else s.owedAtTeardown)
  }

  lemma StartKeepsOwed(s: State, t: Tid, a: StartStep)
    requires StartEnabled(s, t, a)
    ensures KeepsOwed(s, DoStart(s, t, a)) && DoStart(s, t, a).v.owed == (s.v.owed || a.StoreOwed?)
  {
    hide SameBatch, OnlyMoves, SameLife, KeepsOwed, Go, ClaimStart, EnterRunning, OweCallback;
    BeginsOwed(s, t);
    match a
    case StoreOwed =>
    case SpawnReader(r) => MovesOwed(s, t, Finished); MovesOwed(Go(s, t, Finished), r, Reading); TwiceOwed(s, t, r);
    case SetupFails => MovesOwed(s, t, StartFailed);
    case CallbackFails => MovesOwed(s, t, StartFailed);
    case _ => MovesOwed(s, t, Finished);
  }

  lemma BeginsOwed(s: State, t: Tid)
    ensures var r := ClaimStart(s, t); KeepsOwed(s, r) && r.v.owed == s.v.owed
    ensures var r := EnterRunning(s, t); KeepsOwed(s, r) && r.v.owed == s.v.owed
    ensures var r := OweCallback(s, t); KeepsOwed(s, r) && r.v.owed
  {
    hide SameBatch, OnlyMoves, SameLife;
  }

  lemma TwiceOwed(s: State, t: Tid, r: Tid)
    ensures KeepsOwed(s, Go(Go(s, t, Finished), r, Reading))
  {}

  lemma CallKeepsOwed(s: State, t: Tid, k: CallStep)
    requires CallEnabled(s, t, k)
    ensures KeepsOwed(s, DoCall(s, t, k)) && DoCall(s, t, k).v.owed == s.v.owed
  {
    hide SameBatch, OnlyMoves, KeepsOwed, Go, GoOn, RequestStop, Enqueue;
    match k
    case Write(msg) => EnqueueOwes(s, t, msg); MovesOwed(s, t, Finished);
    case Stop => RequestOwes(s, t); MovesOwed(s, t, Finished);
    case _ => MovesOwed(s, t, CloseLoad);
  }

  lemma MovesOwed(s: State, t: Tid, pc: Pc)
    ensures KeepsOwed(s, Go(s, t, pc)) && KeepsOwed(s, GoOn(s, t, pc))
    ensures Go(s, t, pc).v.owed == s.v.owed && GoOn(s, t, pc).v.owed == s.v.owed
  {}

  lemma EnqueueOwes(s: State, t: Tid, msg: Message)
    ensures var r := Enqueue(s, t, msg); KeepsOwed(s, r) && r.v.owed == s.v.owed
  {
    hide OnlyMoves, SameLife;
  }

  lemma RequestOwes(s: State, t: Tid)
    ensures var r := RequestStop(s, t); KeepsOwed(s, r) && r.v.owed == s.v.owed
  {
    hide SameBatch, OnlyMoves;
  }

  lemma StepKeepsOwed(s: State, step: Step)
    requires Enabled(s, step)
    ensures KeepsOwed(s, Do(s, step))
    ensures Do(s, step).v.owed == (s.v.owed || (step.ByStarter? && step.a.StoreOwed?))
  {
    hide StartEnabled, WriterEnabled, CloseEnabled, CallEnabled, DoStart, DoWriter, DoClose, DoCall;
    match step
    case ByStarter(t, a) => StartKeepsOwed(s, t, a);
    case ByWriter(t, w) => WritesQuietly(s, t, w);
    case ByCloser(t, c) => ClosesQuietly(s, t, c);
    case ByCaller(t, k) => CallKeepsOwed(s, t, k);
  }

  /** A callback owed before the teardown is paid by it, in every run. */
  lemma {:induction false} OwedIsPaid(s: State, steps: seq<Step>)
    requires Inv(s) && s.v.owed && s.teardowns == 0 && Path(s, steps)
    ensures var e := End(s, steps); Inv(e) && e.v.owed && e.disconnects == e.teardowns <= 1
    ensures var e := End(s, steps); e.teardowns > 0 ==> e.owedAtTeardown
    decreases |steps|
  {
    hide Inv, Enabled, Do;
    if steps == [] {
    } else {
      var front, last := steps[..|steps| - 1], steps[|steps| - 1];
      OwedIsPaid(s, front);
      StepKeeps(End(s, front), last);
      StepKeepsOwed(End(s, front), last);
    }
    TeardownCount(End(s, steps));
  }

  /** It is owed exactly when some start has got as far as storing it, so a session none did for calls nobody back. */
  lemma {:induction false} OwedIffStored(mark: nat, steps: seq<Step>)
    requires Path(Init(mark), steps)
    ensures var e := End(Init(mark), steps);
      && (e.v.owed <==> exists step :: step in steps && step.ByStarter? && step.a.StoreOwed?)
      && (e.owedAtTeardown ==> e.v.owed) && (!e.v.owed ==> e.disconnects == 0)
    decreases |steps|
  {
    hide Inv, Enabled, Do;
    RunKeeps(mark, steps);
    if steps == [] {
    } else {
      var front, last := steps[..|steps| - 1], steps[|steps| - 1];
      OwedIffStored(mark, front);
      StepKeepsOwed(End(Init(mark), front), last);
      assert steps == front + [last];
    }
    TeardownCount(End(Init(mark), steps));
  }

  /** A start that gets there before the teardown goes on to `onConnected`, and is called back once in every run that ends
      stopped, whatever fails in between. */
  lemma ConnectedIsCalledBack(s: State, t: Tid, steps: seq<Step>)
    requires Inv(s) && s.teardowns == 0 && StartEnabled(s, t, StoreOwed)
    requires Path(DoStart(s, t, StoreOwed), steps)
    ensures DoStart(s, t, StoreOwed).threads[t].Connected?
    ensures var e := End(DoStart(s, t, StoreOwed), steps); e.v.phase.Stopped? && e.everRan ==> e.disconnects == 1
  {
    hide Inv, Path, End;
    var r := DoStart(s, t, StoreOwed);
    StartKeeps(s, t, StoreOwed);
    OwedIsPaid(r, steps);
    StoringRuns(s, t);
    if End(r, steps).v.phase.Stopped? && End(r, steps).everRan {
      TornDownAt(End(r, steps));
    }
  }

  lemma StoringRuns(s: State, t: Tid)
    requires StartEnabled(s, t, StoreOwed)
    ensures var r := DoStart(s, t, StoreOwed); r.v.owed && r.teardowns == s.teardowns && r.threads[t].Connected?
  {
    hide SameBatch;
  }

  // ---- nothing closes unasked

  /** A step that asks for no close: no stop, no failure, no end of the peer's. */
  predicate Undemanding(step: Step) {
    match step
    case ByStarter(_, a) => !a.SetupFails? && !a.CallbackFails?
    case ByWriter(_, w) => !w.BatchFails?
    case ByCloser(_, _) => true
    case ByCaller(_, k) => k.Write?
  }

  predicate Up(s: State) { s.v.phase.Running? && NoCloser(s) }

  lemma StartStaysUp(s: State, t: Tid, a: StartStep)
    requires Lifecycle(s) && Up(s) && StartEnabled(s, t, a) && !a.SetupFails? && !a.CallbackFails?
    ensures Up(DoStart(s, t, a))
  {
    hide SameBatch, OnlyMoves;
  }

  lemma WriterStaysUp(s: State, t: Tid, w: WriterStep)
    requires Up(s) && WriterEnabled(s, t, w) && !w.BatchFails?
    ensures Up(DoWriter(s, t, w))
  {
    hide SameBatch, OnlyMoves, SameLife, Up, Go, TakeQueue, LeaveEmpty, FinishBatch;
    match w
    case SpawnWriter => GoStaysUp(s, t, WriterReady);
    case TakeBatch => RoundStaysUp(s, t);
    case LoadAfterEmpty => LeaveStaysUp(s, t);
    case BatchWritten => EndStaysUp(s, t, s.threads[t].batch);
  }

  lemma GoStaysUp(s: State, t: Tid, pc: Pc)
    requires Up(s) && !pc.CloseLoad? && !pc.CloseCas?
    ensures Up(Go(s, t, pc)) && Up(GoOff(s, t, pc))
  {}

  lemma RoundStaysUp(s: State, t: Tid)
    requires Up(s)
    ensures Up(TakeQueue(s, t))
  {
    hide SameBatch, Up, TakeQueue;
    RoundGoes(s, t);
    MoveStaysUp(s, TakeQueue(s, t), t);
  }

  lemma RoundGoes(s: State, t: Tid)
    ensures var r := TakeQueue(s, t);
      t in r.threads && !r.threads[t].CloseLoad? && !r.threads[t].CloseCas? && r.v.phase == s.v.phase
  {
    hide Total, SameBatch, SameLife, OnlyMoves;
  }

  lemma MoveStaysUp(s: State, r: State, t: Tid)
    requires Up(s) && OnlyMoves(s, r, t) && r.v.phase == s.v.phase
    requires !r.threads[t].CloseLoad? && !r.threads[t].CloseCas?
    ensures Up(r)
  {}

  lemma LeaveStaysUp(s: State, t: Tid)
    requires Up(s)
    ensures Up(LeaveEmpty(s, t))
  {
    hide SameBatch, SameLife, OnlyMoves;
  }

  lemma EndStaysUp(s: State, t: Tid, batch: seq<Message>)
    requires Up(s)
    ensures Up(FinishBatch(s, t, batch))
  {
    hide SameBatch, OnlyMoves;
  }

  lemma CallStaysUp(s: State, t: Tid, msg: Message)
    requires Up(s) && CallEnabled(s, t, Write(msg))
    ensures Up(DoCall(s, t, Write(msg)))
  {
    hide SameBatch, OnlyMoves, WriteRegion, Enqueue;
    GoStaysUp(s, t, Finished);
    EnqueueStaysUp(s, t, msg);
  }

  lemma EnqueueStaysUp(s: State, t: Tid, msg: Message)
    requires Up(s)
    ensures Up(Enqueue(s, t, msg))
  {
    hide WriteRegion, OnlyMoves;
    EnqueueLives(s, t, msg);
  }

  lemma NoCloseStepUp(s: State, t: Tid, c: CloseStep)
    requires Lifecycle(s) && Up(s)
    ensures !CloseEnabled(s, t, c)
  {}

  lemma StepStaysUp(s: State, step: Step)
    requires Inv(s) && Up(s) && Enabled(s, step) && Undemanding(step)
    ensures Up(Do(s, step))
  {
    hide WriteSide, Pending, Lifecycle, Up, StartEnabled, WriterEnabled, CloseEnabled, CallEnabled, DoStart, DoWriter;
    hide DoClose, DoCall;
    match step
    case ByStarter(t, a) => StartStaysUp(s, t, a);
    case ByWriter(t, w) => WriterStaysUp(s, t, w);
    case ByCloser(t, c) => NoCloseStepUp(s, t, c);
    case ByCaller(t, k) => CallStaysUp(s, t, k.msg);
  }

  /** A running session that nobody is closing stays up in every run in which nobody stops it and nothing fails: a writer
      that finds the queue empty just ends. */
  lemma {:induction false} StaysUp(s: State, steps: seq<Step>)
    requires Inv(s) && Up(s) && Path(s, steps) && forall step :: step in steps ==> Undemanding(step)
    ensures Inv(End(s, steps)) && Up(End(s, steps))
    decreases |steps|
  {
    hide Inv, Up, Undemanding, Enabled, Do;
    if steps == [] {
    } else {
      var front, last := steps[..|steps| - 1], steps[|steps| - 1];
      StaysUp(s, front);
      StepKeeps(End(s, front), last);
      StepStaysUp(End(s, front), last);
    }
  }

  // ---- what the history counts

  /** A batch taken, and one written, while a stop is pending. */
  predicate StartsBatch(s: State, step: Step) {
    step.ByWriter? && step.w.TakeBatch? && s.v.queue != [] && s.v.phase.StopRequested?
  }

  predicate FinishesBatch(s: State, step: Step) { step.ByWriter? && step.w.BatchWritten? && s.v.phase.StopRequested? }

  predicate TearsDown(s: State, step: Step) { step.ByCloser? && step.c.RunTearDown? }

  predicate CallsBackOwed(s: State, step: Step) { TearsDown(s, step) && s.v.owed }

  /** The counters after a step. */
  predicate Counted(s: State, r: State, starts: bool, finishes: bool, tears: bool) {
    && r.batchStarts == s.batchStarts + One(starts) && r.batchFinishes == s.batchFinishes + One(finishes)
    && r.teardowns == s.teardowns + One(tears) && r.disconnects == s.disconnects + One(tears && s.v.owed)
  }

  /** The counters of the stop begin at it. */
  predicate NoneYet(s: State) { Rank(s) <= 1 ==> s.batchStarts == s.batchFinishes == 0 }

  lemma StepCounts(s: State, step: Step)
    requires Enabled(s, step) && NoneYet(s)
    ensures Counted(s, Do(s, step), StartsBatch(s, step), FinishesBatch(s, step), TearsDown(s, step))
  {
    hide StartEnabled, WriterEnabled, CloseEnabled, CallEnabled, DoStart, DoWriter, DoClose, DoCall, Counted;
    match step
    case ByStarter(t, a) => StartCounts(s, t, a);
    case ByWriter(t, w) => WriterCounts(s, t, w);
    case ByCloser(t, c) => CloserCounts(s, t, c);
    case ByCaller(t, k) => CallCounts(s, t, k);
  }

  lemma GoCounts(s: State, t: Tid, pc: Pc)
    ensures Counted(s, Go(s, t, pc), false, false, false) && Counted(s, GoOn(s, t, pc), false, false, false)
    ensures Counted(s, GoOff(s, t, pc), false, false, false)
  {}

  lemma StartCounts(s: State, t: Tid, a: StartStep)
    requires StartEnabled(s, t, a)
    ensures Counted(s, DoStart(s, t, a), false, false, false)
  {
    hide SameBatch, SameLife, OnlyMoves, Counted, ClaimStart, EnterRunning, OweCallback, StartEnabled, Exchange;
    BeginCounts(s, t);
    GoCounts(s, t, Finished);
    GoCounts(s, t, StartFailed);
    if a.SpawnReader? {
      SpawnCounts(s, t, a.reader);
    }
  }

  lemma BeginCounts(s: State, t: Tid)
    ensures Counted(s, ClaimStart(s, t), false, false, false) && Counted(s, EnterRunning(s, t), false, false, false)
    ensures Counted(s, OweCallback(s, t), false, false, false)
  {
    hide SameBatch, SameLife, OnlyMoves, Exchange;
  }

  lemma SpawnCounts(s: State, t: Tid, u: Tid)
    ensures Counted(s, Go(Go(s, t, Finished), u, Reading), false, false, false)
  {}

  lemma WriterCounts(s: State, t: Tid, w: WriterStep)
    requires WriterEnabled(s, t, w)
    ensures Counted(s, DoWriter(s, t, w), StartsBatch(s, ByWriter(t, w)), FinishesBatch(s, ByWriter(t, w)), false)
  {
    hide SameBatch, SameLife, OnlyMoves, Counted, TakeQueue, LeaveEmpty, FinishBatch, LoseBatch;
    match w
    case SpawnWriter => GoCounts(s, t, WriterReady);
    case TakeBatch => RoundCounts(s, t);
    case LoadAfterEmpty => LeaveCounts(s, t);
    case BatchWritten => EndCounts(s, t, s.threads[t].batch);
    case BatchFails => EndCounts(s, t, s.threads[t].batch);
  }

  lemma RoundCounts(s: State, t: Tid)
    ensures Counted(s, TakeQueue(s, t), s.v.queue != [] && s.v.phase.StopRequested?, false, false)
  {
    hide Total, SameBatch, SameLife, OnlyMoves;
  }

  lemma LeaveCounts(s: State, t: Tid)
    ensures Counted(s, LeaveEmpty(s, t), false, false, false)
  {
    hide SameBatch, SameLife, OnlyMoves, Counted;
    GoCounts(s, t, Finished);
    GoCounts(s, t, CloseLoad);
  }

  lemma EndCounts(s: State, t: Tid, batch: seq<Message>)
    ensures Counted(s, FinishBatch(s, t, batch), false, s.v.phase.StopRequested?, false)
    ensures Counted(s, LoseBatch(s, t), false, false, false)
  {
    hide SameBatch, SameLife, OnlyMoves;
  }

  lemma CloserCounts(s: State, t: Tid, c: CloseStep)
    requires CloseEnabled(s, t, c)
    ensures Counted(s, DoClose(s, t, c), false, false, c.RunTearDown?)
  {
    hide SameBatch, SameLife, OnlyMoves, Counted, LookAt, WinClose, CallBack, PublishStopped, Exchange;
    match c
    case LoadForClose => LookCounts(s, t, s.v.phase);
    case CasForClose(_) => WinCounts(s, t); LookCounts(s, t, Exchange(s.v, s.threads[t].expected, Stopping).2);
    case RunTearDown => TearDownCounts(s, t);
    case StoreStopped => TearDownCounts(s, t);
  }

  lemma LookCounts(s: State, t: Tid, p: Phase)
    ensures Counted(s, LookAt(s, t, p), false, false, false)
  {
    hide SameBatch, SameLife, OnlyMoves, Counted;
    GoCounts(s, t, CloseCas(p));
    GoCounts(s, t, Finished);
  }

  lemma WinCounts(s: State, t: Tid)
    ensures Counted(s, WinClose(s, t), false, false, false)
  {
    hide SameBatch, OnlyMoves, Exchange;
  }

  lemma TearDownCounts(s: State, t: Tid)
    ensures Counted(s, CallBack(s, t), false, false, true) && Counted(s, PublishStopped(s, t), false, false, false)
  {
    hide SameBatch, OnlyMoves;
  }

  lemma CallCounts(s: State, t: Tid, k: CallStep)
    requires CallEnabled(s, t, k) && NoneYet(s)
    ensures Counted(s, DoCall(s, t, k), false, false, false)
  {
    hide SameBatch, SameLife, OnlyMoves, Counted, NoneYet, WriteRegion, Enqueue, RequestStop, CallEnabled, Go, GoOn;
    match k
    case Write(msg) => EnqueueCounts(s, t, msg); GoCounts(s, t, Finished);
    case Stop => if s.v.phase.Running? { RequestCounts(s, t); } else { GoCounts(s, t, Finished); }
    case _ => GoCounts(s, t, CloseLoad);
  }

  lemma EnqueueCounts(s: State, t: Tid, msg: Message)
    ensures Counted(s, Enqueue(s, t, msg), false, false, false)
  {
    hide SameLife, OnlyMoves, WriteRegion;
  }

  lemma RequestCounts(s: State, t: Tid)
    requires NoneYet(s) && s.v.phase.Running?
    ensures Counted(s, RequestStop(s, t), false, false, false)
  {
    hide SameBatch, OnlyMoves;
  }

  /** Over a run: how often `p` holds of a step and the state it is taken in. */
  function Times(s: State, steps: seq<Step>, p: (State, Step) -> bool): nat
    requires Path(s, steps)
    decreases |steps|
  {
    if steps == [] then 0
    else
      var front := steps[..|steps| - 1];
      Times(s, front, p) + One(p(End(s, front), steps[|steps| - 1]))
  }

  /** The history counts what it says: in every run, the batches taken and written while a stop was pending, the
      teardowns, and the teardowns that found the callback owed. With StopIsOwed and TearDownOnce: at most one batch is
      taken and two are written after a stop, and the teardown and the callback happen at most once. */
  lemma {:induction false} HistoryCounts(mark: nat, steps: seq<Step>)
    requires Path(Init(mark), steps)
    ensures var e := End(Init(mark), steps);
      && NoneYet(e)
      && e.batchStarts == Times(Init(mark), steps, StartsBatch)
      && e.batchFinishes == Times(Init(mark), steps, FinishesBatch)
      && e.teardowns == Times(Init(mark), steps, TearsDown)
      && e.disconnects == Times(Init(mark), steps, CallsBackOwed)
    decreases |steps|
  {
    hide Inv, Enabled, Do, StartsBatch, FinishesBatch, TearsDown;
    if steps == [] {
    } else {
      var front, last := steps[..|steps| - 1], steps[|steps| - 1];
      var s := End(Init(mark), front);
      HistoryCounts(mark, front);
      RunKeeps(mark, front);
      StepCounts(s, last);
      StepMovesForward(s, last);
      StillNone(s, last);
    }
  }

  lemma StillNone(s: State, step: Step)
    requires Inv(s) && Enabled(s, step) && NoneYet(s) && Rank(s) <= Rank(Do(s, step))
    requires Counted(s, Do(s, step), StartsBatch(s, step), FinishesBatch(s, step), TearsDown(s, step))
    ensures NoneYet(Do(s, step))
  {
    hide Inv, Enabled, Do;
  }
}
