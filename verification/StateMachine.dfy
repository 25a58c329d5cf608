/** What a run of a state machine may report, one block for all callbacks of a kind. */
module StateTrace {

  type StateId = nat

  datatype Block =
    | Start
    | Entry(state: StateId, from: StateId)
    | Exit(state: StateId, next: StateId)
    | Tick(state: StateId)
    | Stop

  /** Where a run stands after some blocks. */
  datatype Phase =
    | Begin(state: StateId)                  // the initial state, nothing reported
    | Fresh(state: StateId)                  // started, the initial state not yet entered
    | Entered(state: StateId)                // the initial state entered
    | Left(state: StateId, next: StateId)    // exited towards `next`
    | Moved(state: StateId)                  // entered after a change
    | Ticked(state: StateId)
    | Ended                                  // the last state exited
    | Done
    | Broken

  function Next(p: Phase, b: Block): Phase {
    match (p, b)
    case (Begin(s), Start) => Fresh(s)
    case (Fresh(s), Entry(t, from)) => if t == from == s then Entered(s) else Broken
    case (Fresh(s), Exit(t, next)) => if t == next == s then Ended else Broken
    case (Entered(s), Exit(t, next)) => if t == s != next then Left(s, next) else Broken
    case (Entered(s), Tick(t)) => if t == s then Ticked(s) else Broken
    case (Left(s, n), Entry(t, from)) => if t == n && from == s then Moved(n) else Broken
    case (Moved(s), Tick(t)) => if t == s then Ticked(s) else Broken
    case (Ticked(s), Tick(t)) => if t == s then Ticked(s) else Broken
    case (Ticked(s), Exit(t, next)) => if t != s then Broken else if next == s then Ended else Left(s, next)
    case (Ended, Stop) => Done
    case _ => Broken
  }

  function Parse(initial: StateId, trace: seq<Block>): Phase {
    if trace == [] then Begin(initial) else Next(Parse(initial, trace[..|trace| - 1]), trace[|trace| - 1])
  }

  /** Which block may come right after which: the grammar read pair by pair, after the first two. */
  predicate Follows(a: Block, b: Block) {
    match a
    case Start => false
    case Entry(s, from) => b == Tick(s) || (from == s && b.Exit? && b.state == s && b.next != s)
    case Exit(s, next) => if next == s then b == Stop else b == Entry(next, s)
    case Tick(s) => b == Tick(s) || (b.Exit? && b.state == s)
    case Stop => false
  }

  predicate Proper(initial: StateId, trace: seq<Block>) {
    && (|trace| > 0 ==> trace[0] == Start)
    && (|trace| > 1 ==> trace[1] == Entry(initial, initial) || trace[1] == Exit(initial, initial))
    && forall i :: 2 <= i < |trace| ==> Follows(trace[i - 1], trace[i])
  }

  /** What the last block says of where the run stands. */
  function After(initial: StateId, b: Block): Phase {
    match b
    case Start => Fresh(initial)
    case Entry(s, from) => if from == s then Entered(s) else Moved(s)
    case Exit(s, next) => if next == s then Ended else Left(s, next)
    case Tick(s) => Ticked(s)
    case Stop => Done
  }

  /** A trace is accepted if and only if it opens with Start and the initial state and each block may follow the one
      before it; and where it stands its last block says. */
  lemma {:induction false} ParseIff(initial: StateId, trace: seq<Block>)
    ensures !Parse(initial, trace).Broken? <==> Proper(initial, trace)
    ensures Proper(initial, trace) && trace != [] ==> Parse(initial, trace) == After(initial, trace[|trace| - 1])
    decreases |trace|
  {
    if trace != [] {
      var front, last := trace[..|trace| - 1], trace[|trace| - 1];
      ParseIff(initial, front);
      hide Parse;
      assert Parse(initial, trace) == Next(Parse(initial, front), last) by { ParseLast(initial, trace); }
      ProperFront(initial, trace);
    }
  }

  lemma ParseLast(initial: StateId, trace: seq<Block>)
    requires trace != []
    ensures Parse(initial, trace) == Next(Parse(initial, trace[..|trace| - 1]), trace[|trace| - 1])
  {}

  lemma ProperFront(initial: StateId, trace: seq<Block>)
    requires trace != []
    ensures var n := |trace| - 1;
      Proper(initial, trace) <==>
        && Proper(initial, trace[..n])
        && if n == 0 then trace[0] == Start
           else if n == 1 then trace[1] == Entry(initial, initial) || trace[1] == Exit(initial, initial)
           else Follows(trace[n - 1], trace[n])
  {
    hide Follows;
    var n := |trace| - 1;
    var front := trace[..n];
    assert forall i :: 0 <= i < n ==> front[i] == trace[i];
    if Proper(initial, front) && n >= 2 && Follows(trace[n - 1], trace[n]) {
      forall i | 2 <= i < |trace| ensures Follows(trace[i - 1], trace[i]) {
        assert i < n ==> Follows(front[i - 1], front[i]);
      }
    }
    if Proper(initial, trace) {
      forall i | 2 <= i < n ensures Follows(front[i - 1], front[i]) {
        assert Follows(trace[i - 1], trace[i]);
      }
    }
  }

  function Ticks(trace: seq<Block>): nat {
    if trace == [] then 0 else Ticks(trace[..|trace| - 1]) + if trace[|trace| - 1].Tick? then 1 else 0
  }

  lemma NoBlocks(initial: StateId)
    ensures Parse(initial, []) == Begin(initial) && Ticks([]) == 0
  {}

  lemma Snoc(initial: StateId, trace: seq<Block>, b: Block)
    ensures Parse(initial, trace + [b]) == Next(Parse(initial, trace), b)
    ensures Ticks(trace + [b]) == Ticks(trace) + if b.Tick? then 1 else 0
  {
    assert (trace + [b])[..|trace|] == trace;
  }
}

/** The state machine's callbacks, run one after another in its worker's loop. */
module StateMachines {
  import opened StateTrace

  /** How many callbacks a state has of each kind. */
  datatype Config = Config(ticks: nat, entries: nat, exits: nat)

  datatype Call =
    | OnStart
    | OnEntry(state: StateId, index: int, newState: StateId, oldState: StateId)
    | OnExit(state: StateId, index: int, newState: StateId, oldState: StateId)
    | OnTick(state: StateId, index: int)
    | OnStop

  type States = map<StateId, Config>

  /** The calls made between `before` and `after` are the callbacks a block stands for: as many as were added, in the
      order they were added, an entry and an exit with the new and the old state they are due. */
  ghost predicate Called(states: States, b: Block, before: seq<Call>, after: seq<Call>)
    requires (b.Entry? || b.Exit? || b.Tick?) && b.state in states
  {
    && before <= after
    && match b
       case Tick(s) =>
         && |after| == |before| + states[s].ticks
         && forall i :: 0 <= i < states[s].ticks ==> after[|before| + i] == OnTick(s, i)
       case Entry(s, from) =>
         && |after| == |before| + states[s].entries
         && forall i :: 0 <= i < states[s].entries ==> after[|before| + i] == OnEntry(s, i, s, from)
       case Exit(s, next) =>
         && |after| == |before| + states[s].exits
         && forall i :: 0 <= i < states[s].exits ==> after[|before| + i] == OnExit(s, i, next, s)
  }

  /** A block's callbacks, each once and in the order they were added. */
  function BlockCalls(states: States, b: Block): seq<Call> {
    match b
    case Start => [OnStart]
    case Stop => [OnStop]
    case Entry(s, from) => if s in states then seq(states[s].entries, i => OnEntry(s, i, s, from)) else []
    case Exit(s, next) => if s in states then seq(states[s].exits, i => OnExit(s, i, next, s)) else []
    case Tick(s) => if s in states then seq(states[s].ticks, i => OnTick(s, i)) else []
  }

  function Calls(states: States, blocks: seq<Block>): seq<Call> {
    if blocks == [] then []
    else Calls(states, blocks[..|blocks| - 1]) + BlockCalls(states, blocks[|blocks| - 1])
  }

  /** The calls of one more block come after those already made. */
  lemma CallsSnoc(states: States, blocks: seq<Block>, b: Block)
    ensures Calls(states, blocks + [b]) == Calls(states, blocks) + BlockCalls(states, b)
  {
    assert (blocks + [b])[..|blocks|] == blocks;
  }

  lemma BlockIsCalled(states: States, b: Block, before: seq<Call>)
    requires (b.Entry? || b.Exit? || b.Tick?) && b.state in states
    ensures Called(states, b, before, before + BlockCalls(states, b))
  {}

  lemma StopIsCalled(states: States)
    ensures BlockCalls(states, Stop) == [OnStop]
  {}

  /** The block a call belongs to. */
  function BlockOf(c: Call): Block {
    match c
    case OnStart => Start
    case OnEntry(s, _, _, from) => Entry(s, from)
    case OnExit(s, _, next, _) => Exit(s, next)
    case OnTick(s, _) => Tick(s)
    case OnStop => Stop
  }

  /** A callback that was added, called with the new and the old state it is due. */
  predicate Configured(states: States, c: Call) {
    match c
    case OnStart => true
    case OnEntry(s, i, newState, _) => s in states && 0 <= i < states[s].entries && newState == s
    case OnExit(s, i, _, oldState) => s in states && 0 <= i < states[s].exits && oldState == s
    case OnTick(s, i) => s in states && 0 <= i < states[s].ticks
    case OnStop => true
  }

  lemma {:induction false} CountDistinct(q: seq<Call>, c: Call)
    requires forall i, j :: 0 <= i < j < |q| ==> q[i] != q[j]
    ensures multiset(q)[c] == if c in q then 1 else 0
    decreases |q|
  {
    if q != [] {
      var front, last := q[..|q| - 1], q[|q| - 1];
      CountDistinct(front, c);
      assert q == front + [last];
    }
  }

  /** A block's calls are those of its kind and state that were added, each once. */
  lemma BlockCallsOnce(states: States, b: Block, c: Call)
    ensures multiset(BlockCalls(states, b))[c] == if Configured(states, c) && BlockOf(c) == b then 1 else 0
  {
    var q := BlockCalls(states, b);
    CountDistinct(q, c);
    if Configured(states, c) && BlockOf(c) == b {
      match c
      case OnStart => assert q[0] == c;
      case OnEntry(_, i, _, _) => assert q[i] == c;
      case OnExit(_, i, _, _) => assert q[i] == c;
      case OnTick(_, i) => assert q[i] == c;
      case OnStop => assert q[0] == c;
    }
  }

  /** Over any blocks each callback that was added is called exactly as often as there are blocks of its kind for its
      state, with the states they name, and nothing else is ever called. */
  lemma {:induction false} CallsCount(states: States, blocks: seq<Block>, c: Call)
    ensures multiset(Calls(states, blocks))[c] == if Configured(states, c) then multiset(blocks)[BlockOf(c)] else 0
    decreases |blocks|
  {
    hide BlockCalls, Configured, BlockOf;
    if blocks != [] {
      var front, last := blocks[..|blocks| - 1], blocks[|blocks| - 1];
      CallsCount(states, front, c);
      BlockCallsOnce(states, last, c);
      assert blocks == front + [last];
    }
  }

  // ---- one tick

  /** The blocks of a tick that finds every state it needs. */
  function TickBlocks(current: StateId, requested: StateId, justStarted: bool): seq<Block> {
    (if justStarted then [Entry(current, current)] else [])
    + (if current != requested then [Exit(current, requested), Entry(requested, current)] else [])
    + [Tick(requested)]
  }

  /** The blocks of a tick that throws for want of a state. */
  function FailedBlocks(states: States, current: StateId, requested: StateId, justStarted: bool): seq<Block> {
    if current !in states then []
    else (if justStarted then [Entry(current, current)] else []) + [Exit(current, requested)]
  }

  /** What the worker's loop loads in one iteration. */
  datatype Round = Round(stop: bool, requested: StateId, targetReached: bool)

  datatype Outcome = Outcome(blocks: seq<Block>, current: StateId, ended: bool, threw: bool)

  /** The iterations of the loop, from one that is about to test for a stop. */
  function LoopOutcome(states: States, current: StateId, justStarted: bool, rounds: seq<Round>): Outcome
    decreases |rounds|
  {
    if rounds == [] then Outcome([], current, false, false)
    else if rounds[0].stop then Outcome([], current, true, false)
    else
      var requested := rounds[0].requested;
      if current !in states then Outcome(FailedBlocks(states, current, requested, justStarted), current, true, true)
      else if requested !in states then Outcome(FailedBlocks(states, current, requested, justStarted), requested, true, true)
      else if rounds[0].targetReached then Outcome(TickBlocks(current, requested, justStarted), requested, true, false)
      else
        var rest := LoopOutcome(states, requested, false, rounds[1..]);
        rest.(blocks := TickBlocks(current, requested, justStarted) + rest.blocks)
  }

  /** A whole run, up to the end of the stop callbacks when it has one. */
  function RunBlocks(states: States, initial: StateId, rounds: seq<Round>): seq<Block> {
    var o := LoopOutcome(states, initial, true, rounds);
    [Start] + o.blocks + if o.ended && o.current in states then [Exit(o.current, o.current), Stop] else []
  }

  // ---- the blocks of a run are accepted

  function Resume(p: Phase, blocks: seq<Block>): Phase
    decreases |blocks|
  {
    if blocks == [] then p else Resume(Next(p, blocks[0]), blocks[1..])
  }

  lemma {:induction false} ResumeAdd(p: Phase, a: seq<Block>, b: seq<Block>)
    ensures Resume(p, a + b) == Resume(Resume(p, a), b)
    decreases |a|
  {
    hide Next;
    if a == [] {
      assert a + b == b;
    } else {
      assert (a + b)[1..] == a[1..] + b;
      ResumeAdd(Next(p, a[0]), a[1..], b);
    }
  }

  lemma {:induction false} ParseResumes(initial: StateId, trace: seq<Block>)
    ensures Parse(initial, trace) == Resume(Begin(initial), trace)
    decreases |trace|
  {
    hide Next;
    if trace == [] {
    } else {
      var front, last := trace[..|trace| - 1], trace[|trace| - 1];
      assert front + [last] == trace;
      ParseResumes(initial, front);
      ResumeAdd(Begin(initial), front, [last]);
      assert [last][1..] == [];
    }
  }

  function Rested(current: StateId, justStarted: bool): Phase { if justStarted then Fresh(current) else Ticked(current) }

  lemma OneBlock(p: Phase, b: Block)
    ensures Resume(p, [b]) == Next(p, b)
  {
    assert [b][1..] == [];
  }

  /** A tick takes the machine from rest in one state to rest in the requested one. */
  lemma TickAccepted(current: StateId, requested: StateId, justStarted: bool)
    ensures Resume(Rested(current, justStarted), TickBlocks(current, requested, justStarted)) == Ticked(requested)
  {
    hide Resume;
    var first := if justStarted then [Entry(current, current)] else [];
    var change := if current != requested then [Exit(current, requested), Entry(requested, current)] else [];
    var p := Rested(current, justStarted);
    NoneResumed(p);
    OneBlock(p, Entry(current, current));
    var q := Resume(p, first);
    NoneResumed(q);
    assert [Exit(current, requested), Entry(requested, current)] == [Exit(current, requested)] + [Entry(requested, current)];
    ResumeAdd(q, [Exit(current, requested)], [Entry(requested, current)]);
    OneBlock(q, Exit(current, requested));
    OneBlock(Left(current, requested), Entry(requested, current));
    ResumeAdd(p, first, change);
    ResumeAdd(p, first + change, [Tick(requested)]);
    OneBlock(Resume(q, change), Tick(requested));
  }

  lemma NoneResumed(p: Phase)
    ensures Resume(p, []) == p
  {}

  lemma FailureAccepted(states: States, current: StateId, requested: StateId, justStarted: bool)
    requires current in states && requested !in states
    ensures Resume(Rested(current, justStarted), FailedBlocks(states, current, requested, justStarted))
      == Left(current, requested)
  {
    hide Resume;
    var p := Rested(current, justStarted);
    OneBlock(p, Entry(current, current));
    OneBlock(p, Exit(current, requested));
    OneBlock(Entered(current), Exit(current, requested));
    ResumeAdd(p, [Entry(current, current)], [Exit(current, requested)]);
    assert [] + [Exit(current, requested)] == [Exit(current, requested)];
  }

  /** Where the loop leaves the trace: at rest in the current state, or, when the loop met a state that was never added,
      on the way to that state. */
  predicate Standing(states: States, p: Phase, o: Outcome) {
    if o.threw then
      o.ended && o.current !in states &&
      (p == Fresh(o.current) || (p.Left? && p.next == o.current && p.state in states))
    else p == Fresh(o.current) || (p == Ticked(o.current) && o.current in states)
  }

  lemma {:induction false} LoopAccepted(states: States, current: StateId, justStarted: bool, rounds: seq<Round>)
    requires justStarted || current in states
    ensures var o := LoopOutcome(states, current, justStarted, rounds);
      Standing(states, Resume(Rested(current, justStarted), o.blocks), o)
    decreases |rounds|
  {
    hide Resume, Next, TickBlocks;
    var p := Rested(current, justStarted);
    NoneResumed(p);
    if rounds == [] || rounds[0].stop {
    } else {
      var requested := rounds[0].requested;
      if current !in states {
      } else if requested !in states {
        FailureAccepted(states, current, requested, justStarted);
      } else {
        TickAccepted(current, requested, justStarted);
        if !rounds[0].targetReached {
          LoopAccepted(states, requested, false, rounds[1..]);
          var rest := LoopOutcome(states, requested, false, rounds[1..]);
          ResumeAdd(p, TickBlocks(current, requested, justStarted), rest.blocks);
        }
      }
    }
  }

  /** How many iterations the loop begins when no state is missing. */
  function Served(rounds: seq<Round>): (n: nat)
    ensures n <= |rounds|
    decreases |rounds|
  {
    if rounds == [] || rounds[0].stop then 0 else if rounds[0].targetReached then 1 else 1 + Served(rounds[1..])
  }

  /** Whether some iteration ends the loop. */
  predicate Ends(rounds: seq<Round>)
    decreases |rounds|
  {
    rounds != [] && (rounds[0].stop || rounds[0].targetReached || Ends(rounds[1..]))
  }

  predicate AllAdded(states: States, rounds: seq<Round>) {
    forall i :: 0 <= i < Served(rounds) ==> rounds[i].requested in states
  }

  lemma AllAddedStep(states: States, rounds: seq<Round>)
    requires rounds != [] && !rounds[0].stop
    ensures AllAdded(states, rounds) <==>
      rounds[0].requested in states && (rounds[0].targetReached || AllAdded(states, rounds[1..]))
  {
    var rest := rounds[1..];
    assert forall i :: 0 <= i < |rest| ==> rest[i] == rounds[i + 1];
    if AllAdded(states, rounds) && !rounds[0].targetReached {
      forall i | 0 <= i < Served(rest) ensures rest[i].requested in states {
        assert rounds[i + 1].requested in states;
      }
    }
  }

  lemma {:induction false} LoopOnInput(states: States, current: StateId, justStarted: bool, rounds: seq<Round>)
    requires current in states
    ensures var o := LoopOutcome(states, current, justStarted, rounds);
      && o.threw == !AllAdded(states, rounds)
      && (o.threw ==> o.ended && o.current !in states)
      && (!o.threw ==> o.ended == Ends(rounds) && o.current in states)
    decreases |rounds|
  {
    hide AllAdded, TickBlocks, FailedBlocks;
    if rounds == [] || rounds[0].stop {
      NoneServed(states, rounds);
    } else {
      AllAddedStep(states, rounds);
      if rounds[0].requested in states && !rounds[0].targetReached {
        LoopOnInput(states, rounds[0].requested, false, rounds[1..]);
      }
    }
  }

  lemma NoneServed(states: States, rounds: seq<Round>)
    requires rounds == [] || rounds[0].stop
    ensures AllAdded(states, rounds)
  {}

  /** A run reports Start, then ticks with an exit and an entry at each change of state, then the exit of the state it was
      in and Stop, if and only if something ends it and every state it was asked for by then had been added. Otherwise it
      is still at rest in a state, or has left one for a state that was never added, or never had its initial state. */
  lemma RunAccepted(states: States, initial: StateId, rounds: seq<Round>)
    ensures var p := Parse(initial, RunBlocks(states, initial, rounds));
      && (p.Done? <==> initial in states && AllAdded(states, rounds) && Ends(rounds))
      && (initial in states && !AllAdded(states, rounds) ==> p.Left? && p.state in states && p.next !in states)
      && (initial in states && AllAdded(states, rounds) && !Ends(rounds) ==> p.Fresh? || p.Ticked?)
      && (initial !in states ==> p == Fresh(initial))
  {
    hide Resume, LoopOutcome, AllAdded, Ends;
    var o := LoopOutcome(states, initial, true, rounds);
    var tail := if o.ended && o.current in states then [Exit(o.current, o.current), Stop] else [];
    LoopAccepted(states, initial, true, rounds);
    ParseResumes(initial, RunBlocks(states, initial, rounds));
    OneBlock(Begin(initial), Start);
    ResumeAdd(Begin(initial), [Start], o.blocks);
    ResumeAdd(Begin(initial), [Start] + o.blocks, tail);
    var p := Resume(Fresh(initial), o.blocks);
    NoneResumed(p);
    assert [Exit(o.current, o.current), Stop] == [Exit(o.current, o.current)] + [Stop];
    ResumeAdd(p, [Exit(o.current, o.current)], [Stop]);
    OneBlock(p, Exit(o.current, o.current));
    OneBlock(Ended, Stop);
    if initial in states {
      LoopOnInput(states, initial, true, rounds);
    } else {
      LoopWithoutInitial(states, initial, rounds);
    }
  }

  lemma LoopWithoutInitial(states: States, initial: StateId, rounds: seq<Round>)
    requires initial !in states
    ensures var o := LoopOutcome(states, initial, true, rounds); o.blocks == [] && o.current == initial
  {}

  /** The states ticked, in order. */
  function TickStates(blocks: seq<Block>): seq<StateId> {
    if blocks == [] then [] else (if blocks[0].Tick? then [blocks[0].state] else []) + TickStates(blocks[1..])
  }

  lemma {:induction false} TickStatesAdd(a: seq<Block>, b: seq<Block>)
    ensures TickStates(a + b) == TickStates(a) + TickStates(b)
    decreases |a|
  {
    if a == [] {
      assert a + b == b;
    } else {
      assert (a + b)[1..] == a[1..] + b && (a + b)[0] == a[0];
      TickStatesAdd(a[1..], b);
      hide TickStates;
      Associate(if a[0].Tick? then [a[0].state] else [], TickStates(a[1..]), TickStates(b));
    }
  }

  lemma Associate(a: seq<StateId>, b: seq<StateId>, c: seq<StateId>)
    ensures (a + b) + c == a + (b + c)
  {}

  /** What the iterations that the loop begins ask for. */
  function Asked(rounds: seq<Round>): seq<StateId>
  {
    seq(Served(rounds), i requires 0 <= i < |rounds| => rounds[i].requested)
  }

  lemma TickBlocksTick(current: StateId, requested: StateId, justStarted: bool)
    ensures TickStates(TickBlocks(current, requested, justStarted)) == [requested]
  {
    var first := if justStarted then [Entry(current, current)] else [];
    var change := if current != requested then [Exit(current, requested), Entry(requested, current)] else [];
    TickStatesAdd(first + change, [Tick(requested)]);
    TickStatesAdd(first, change);
    OneBlockTicks(Entry(current, current));
    OneBlockTicks(Tick(requested));
    assert [Exit(current, requested), Entry(requested, current)][1..] == [Entry(requested, current)];
    OneBlockTicks(Entry(requested, current));
  }

  lemma {:induction false} LoopTicks(states: States, current: StateId, justStarted: bool, rounds: seq<Round>)
    requires current in states && AllAdded(states, rounds)
    ensures TickStates(LoopOutcome(states, current, justStarted, rounds).blocks) == Asked(rounds)
    decreases |rounds|
  {
    hide AllAdded, TickBlocks, FailedBlocks, TickStates;
    if rounds == [] || rounds[0].stop {
      NoTicks();
    } else {
      var requested := rounds[0].requested;
      AllAddedStep(states, rounds);
      TickBlocksTick(current, requested, justStarted);
      if rounds[0].targetReached {
        assert Asked(rounds) == [requested];
      } else {
        LoopTicks(states, requested, false, rounds[1..]);
        var rest := LoopOutcome(states, requested, false, rounds[1..]);
        TickStatesAdd(TickBlocks(current, requested, justStarted), rest.blocks);
        assert Asked(rounds) == [requested] + Asked(rounds[1..]);
      }
    }
  }

  lemma NoTicks()
    ensures TickStates([]) == []
  {}

  /** Each iteration ticks once, in the state it was asked for. */
  lemma RunTicksAsAsked(states: States, initial: StateId, rounds: seq<Round>)
    requires initial in states && AllAdded(states, rounds)
    ensures TickStates(RunBlocks(states, initial, rounds)) == Asked(rounds)
  {
    hide AllAdded, LoopOutcome;
    var o := LoopOutcome(states, initial, true, rounds);
    var tail := if o.ended && o.current in states then [Exit(o.current, o.current), Stop] else [];
    LoopTicks(states, initial, true, rounds);
    TickStatesAdd([Start] + o.blocks, tail);
    TickStatesAdd([Start], o.blocks);
    OneBlockTicks(Start);
    OneBlockTicks(Stop);
    assert [Exit(o.current, o.current), Stop][1..] == [Stop];
  }

  lemma OneBlockTicks(b: Block)
    ensures TickStates([b]) == if b.Tick? then [b.state] else []
  {
    assert [b][1..] == [];
  }

  /** The initial state is entered before anything is exited exactly when the stop does not come before the first tick;
      when it does, the run exits a state it never entered. */
  lemma EntersFirstIff(states: States, initial: StateId, rounds: seq<Round>)
    requires initial in states && rounds != []
    ensures var blocks := RunBlocks(states, initial, rounds);
      && (|blocks| >= 2 && blocks[1] == Entry(initial, initial) <==> !rounds[0].stop)
      && (rounds[0].stop ==> blocks == [Start, Exit(initial, initial), Stop])
  {}

  /** The loop's outcome from iteration `i` on, as that iteration leaves it to the next. */
  lemma LoopTurn(states: States, current: StateId, justStarted: bool, rounds: seq<Round>, i: nat)
    requires i <= |rounds|
    ensures var o := LoopOutcome(states, current, justStarted, rounds[i..]);
      if i == |rounds| then o == Outcome([], current, false, false)
      else if rounds[i].stop then o == Outcome([], current, true, false)
      else
        var requested := rounds[i].requested;
        if current !in states || requested !in states then
          && o.blocks == FailedBlocks(states, current, requested, justStarted) && o.ended
          && o.current == if current in states then requested else current
        else if rounds[i].targetReached then
          o == Outcome(TickBlocks(current, requested, justStarted), requested, true, false)
        else
          var rest := LoopOutcome(states, requested, false, rounds[i + 1..]);
          o == rest.(blocks := TickBlocks(current, requested, justStarted) + rest.blocks)
  {
    hide TickBlocks, FailedBlocks;
    if i < |rounds| {
      assert rounds[i..][0] == rounds[i] && rounds[i..][1..] == rounds[i + 1..];
    }
  }

  class Machine {
    var current: StateId
    var requested: StateId
    var justStarted: bool
    const states: States
    var calls: seq<Call>          // every callback invoked, in order
    ghost var blocks: seq<Block>  // the same by block

    ghost predicate Valid()
      reads this
    {
      calls == Calls(states, blocks)
    }

    constructor (states: States, initial: StateId)
      ensures Valid() && this.states == states && current == requested == initial && blocks == []
    {
      this.states := states;
      current, requested, justStarted, calls, blocks := initial, initial, false, [], [];
    }

    /** The loop over a state's callbacks of one kind; false when the state was never added. */
    method Invoke(b: Block) returns (found: bool)
      requires Valid() && (b.Entry? || b.Exit? || b.Tick?)
      modifies this`calls, this`blocks
      ensures Valid() && (found <==> b.state in states)
      ensures blocks == if found then old(blocks) + [b] else old(blocks)
      ensures if found then Called(states, b, old(calls), calls) else calls == old(calls)
      ensures old(calls) <= calls
    {
      hide Called;
      if b.state !in states {
        return false;
      }
      var all := BlockCalls(states, b);
      for i := 0 to |all|
        invariant calls == old(calls) + all[..i] && blocks == old(blocks)
      {
        calls := calls + [all[i]];
      }
      CallsSnoc(states, blocks, b);
      BlockIsCalled(states, b, old(calls));
      assert all[..|all|] == all;
      blocks := blocks + [b];
      return true;
    }

    method TickAction() returns (ok: bool)
      requires Valid()
      modifies this
      ensures Valid() && !justStarted && requested == old(requested)
      ensures ok <==> old(current) in states && requested in states
      ensures current == if old(current) in states then requested else old(current)
      ensures blocks == old(blocks) +
        if ok then TickBlocks(old(current), requested, old(justStarted))
        else FailedBlocks(states, old(current), requested, old(justStarted))
      ensures ok ==> exists front :: old(calls) <= front && Called(states, Tick(requested), front, calls)
    {
      hide Calls, BlockCalls, Called;
      var cur, req := current, requested;
      var first := justStarted;
      justStarted := false;
      if first {
        ok := Invoke(Entry(cur, cur));
        if !ok {
          return;
        }
      }
      if cur != req {
        ok := Invoke(Exit(cur, req));
        if !ok {
          return;
        }
        current := req;
        ok := Invoke(Entry(req, cur));
        if !ok {
          return;
        }
        cur := req;
      }
      ghost var before := calls;
      ok := Invoke(Tick(cur));
      assert ok ==> Called(states, Tick(requested), before, calls);
    }

    method WorkerOnStart()
      requires Valid()
      modifies this`calls, this`blocks, this`justStarted
      ensures Valid() && justStarted && blocks == old(blocks) + [Start] && calls == old(calls) + [OnStart]
    {
      CallsSnoc(states, blocks, Start);
      calls, blocks := calls + [OnStart], blocks + [Start];
      justStarted := true;
    }

    method WorkerOnStop() returns (ok: bool)
      requires Valid()
      modifies this`calls, this`blocks
      ensures Valid() && (ok <==> current in states)
      ensures blocks == old(blocks) + if ok then [Exit(current, current), Stop] else []
      ensures !ok ==> calls == old(calls)
      ensures ok ==>
        && calls != [] && calls[|calls| - 1] == OnStop
        && Called(states, Exit(current, current), old(calls), calls[..|calls| - 1])
    {
      hide Calls, BlockCalls, Called;
      ok := Invoke(Exit(current, current));
      if ok {
        CallsSnoc(states, blocks, Stop);
        StopIsCalled(states);
        ghost var exited := calls;
        calls, blocks := calls + [OnStop], blocks + [Stop];
        assert calls[..|calls| - 1] == exited;
      }
    }

    /** The worker's loop between the start and stop callbacks; `rounds` is what each iteration loads. */
    method Action(rounds: seq<Round>) returns (ended: bool)
      requires Valid() && blocks == []
      modifies this
      ensures Valid() && blocks == RunBlocks(states, old(current), rounds)
      ensures ended == LoopOutcome(states, old(current), true, rounds).ended
    {
      hide Calls, BlockCalls, TickBlocks, FailedBlocks, LoopOutcome;
      WorkerOnStart();
      ghost var o := LoopOutcome(states, current, true, rounds);
      assert rounds[0..] == rounds;
      var i := 0;
      ended := false;
      while i < |rounds| && !ended
        invariant 0 <= i <= |rounds| && Valid()
        invariant ended ==> o.ended && o.current == current && blocks == [Start] + o.blocks
        invariant !ended ==>
          (var rest := LoopOutcome(states, current, justStarted, rounds[i..]);
           o == rest.(blocks := o.blocks) && [Start] + o.blocks == blocks + rest.blocks)
        decreases |rounds| - i, !ended
      {
        LoopTurn(states, current, justStarted, rounds, i);
        if rounds[i].stop {
          ended := true;
        } else {
          requested := rounds[i].requested;
          var ok := TickAction();
          if !ok || rounds[i].targetReached {
            ended := true;
          } else {
            i := i + 1;
          }
        }
      }
      if ended {
        var _ := WorkerOnStop();
      } else {
        LoopTurn(states, current, justStarted, rounds, i);
      }
    }
  }
}
