# libsg in Dafny

A Dafny 4.11 model of the parts of libsg whose correctness does not show from reading one function: the CRC engine, the
lifecycle protocols of the session, the server, the I/O pool and the worker, the calendar conversions, the rolling buffer
and the synchronous reader. `dafny verify dfyconfig.toml` checks the whole project.

| file | what it models |
|---|---|
| `Words.dfy` | 32-bit words as polynomials over GF(2); the bit-at-a-time CRC register of section 12.1 of RFC 3720 and section 8 of RFC 1952 |
| `CrcTabular.dfy` | table generation, the five slicing kernels, the dispatcher, `crc32c` and `crc32` |
| `CrcDivision.dfy` | what that register holds: the remainder of a polynomial division, and the two generators |
| `XnModP.dfy`, `CrcMerge.dfy` | `xnmodp`, `crc_shift` and the merge of three streams in the Intel form |
| `Session.dfy`, `SessionProgress.dfy` | `tcp_session`: the critical sections as a class, and every interleaving of them |
| `Server.dfy`, `ServerProgress.dfy` | `tcp_server`: start, stop, listeners, sessions and the stopping thread |
| `Pool.dfy`, `PoolProgress.dfy` | `asio_io_pool`: run, stop, workers and monitor |
| `Worker.dfy`, `WorkerProgress.dfy`, `StateMachine.dfy` | `worker` and `state_machine`: the callback loops as a class, and every interleaving with the callers |
| `Gregorian.dfy`, `Weekday.dfy`, `Islamic.dfy` | day counts, weekdays, ISO 8601 week dates (section 4.1.4), the tabular Islamic calendar |
| `RollingBuffer.dfy` | `rolling_contiguous_buffer` |
| `SyncReader.dfy` | `tcp_client_sync` |

## How the model is built

Code that works by assignment is imperative Dafny: the CRC loops, `xnmodp`, the rolling buffer, the synchronous client, a
session's critical sections and a state machine's callbacks are methods, each proved against a specification function or
an outright property. The four concurrent classes are transition systems as well. One step is one critical section, one
atomic load, store or compare-exchange, or one stretch of a coroutine between two awaits; a run is any sequence of enabled
steps, so a theorem about `End(Init(), steps)` speaks of every interleaving. Fields whose comment says "history" record the
past and decide nothing. The `Progress` modules prove what safety leaves open: what each call gets done, and that from
every state the invariant allows some run of the parties' own steps carries it through. Sockets, timers, the resolver and user callbacks are the environment: they appear as parameters
or as steps that may happen at any time their contract allows.

## What the proofs found

* **A stop can drop an accepted message.** Between the check that finds the queue empty and the later state load, a writer
  has already given up the right to write. A message accepted in between is lost if `stop_async` is called before the load:
  the writer goes on to close, on the strand, before the new writer can run, and no later run sends the message
  (`DrainCanLose`). A stop drains, in every run in which nothing else goes wrong, exactly when it is not called with a
  writer in that gap and a message accepted since (`StopDrainsIff`).
* **`stop_async` after a failed server start can end the next run.** It starts a stopping thread with no context to stop.
  If the caller starts again meanwhile, that thread stores `m_running = false` while the new run listens
  (`StopEndsNextStart`). A stop request is safe in every later run with no further such call exactly when there is a
  context, or a stop was requested before and its thread is done (`StopIsSafeIff`).
* **A pool without a work guard can strand a handler.** A worker that finishes the last work and the flag that says the
  context has stopped are two steps apart. A `run` in between takes the context for a live one and returns, and a handler
  posted just before is left in the queue. A handler is safe exactly when `run` is not called in that gap
  (`NotStrandedIff`, `CanWaver`), and a pool with a guard is never in it when `run` is called (`GuardedIsSafe`).
* **The pool's stopped callback must not call `stop_async` when a `run` may come first.** The header calls it a safe no-op,
  but `run` holds the mutex while it waits for that very callback. With no further `run`, the call is never blocked for
  ever, and can return, exactly when none is waiting with the mutex already (`CallbackStopReturnsIff`); a `run` that begins
  before the callback has the mutex blocks both for good (`CallbackStopExposed`, `CallbackStopCanBlock`, `StuckForever`).
* **A state machine restarted on `is_running()` can exit the wrong state.** The flag falls before the stop callbacks run,
  and `start` overwrites the current state before it joins the old thread (`StartCanMisdirectExit`). A start is safe exactly
  when the old run's exit callbacks have begun, or its state is the new initial one (`StartIsSafeIff`).
* **A run with no tick exits a state it never entered**, since entry callbacks belong to the first tick: entry comes first
  exactly when no stop comes before the first tick (`EntersFirstIff`).
* **Asking for a state that was never added ends the run without a Stop callback.** A run reports the whole sequence exactly
  when something ends it and every state asked for by then had been added (`RunAccepted`).

## Model

| member | source | states |
|---|---|---|
| CrcSpec.StepLinear | common/src/include/crc32c_tabular.h:169 | the one-bit step is linear over XOR, for every polynomial |
| CrcSpec.FeedBitsIsSteps | common/src/include/crc32c_tabular.h:167-170 | feeding k message bits one at a time equals adding them all to the register first |
| CrcSpec.EightSteps | common/src/include/crc32c_tabular.h:21 | eight bit steps are a byte shift plus the steps of the low byte: the table look-up |
| CrcTabular.ComputeTables | common/src/include/crc32c_tabular.h:155-182 | entry i of table k is byte i followed by k + 1 zero bytes, for all sixteen tables and any polynomial |
| CrcTabular.Lookup | common/src/include/crc32c_tabular.h:159-179 | reading table k at a byte advances that byte by 8(k + 1) steps |
| CrcTabular.SliceMeaning | common/src/include/crc32c_tabular.h:61-64 | four tables read at the bytes of a word advance the whole word |
| CrcTabular.Absorb4 | common/src/include/crc32c_tabular.h:60 | adding a little-endian word to the register stands for its four bytes fed in order |
| CrcTabular.Round16 | common/src/include/crc32c_tabular.h:136-147 | one round of sixteen look-ups is the bit-at-a-time CRC of sixteen bytes |
| CrcTabular.Kernel1 | common/src/include/crc32c_tabular.h:16-24 | the byte kernel returns the bit-at-a-time CRC of the message |
| CrcTabular.Kernel2 | common/src/include/crc32c_tabular.h:25-46 | so does the two-byte kernel with its byte-wise tail |
| CrcTabular.Kernel4 | common/src/include/crc32c_tabular.h:47-68 | so does the four-byte kernel with its chained tail |
| CrcTabular.Kernel8 | common/src/include/crc32c_tabular.h:69-105 | so does the eight-byte kernel with its chained tail |
| CrcTabular.Kernel16 | common/src/include/crc32c_tabular.h:106-154 | so does the sixteen-byte kernel with its chained tail |
| CrcTabular.TailOffsetIff | common/src/include/crc32c_tabular.h:45-67 | the 32-bit tail offset of these kernels is right exactly under 2^32 bytes; any longer message leaves a tail the byte kernel's 32-bit counter never finishes |
| CrcTabular.Tabular | common/src/include/crc32c_tabular.h:183-196 | whatever kernel the length selects, the result is the register CrcIsRemainder describes, for any polynomial, start and message |
| CrcTabular.CrcConcat | common/src/include/crc32c_tabular.h:183-196 | the register of a concatenation is the register of the second part begun from that of the first |
| CrcTabular.Crc32c | common/src/crc.cpp:27-42 | the table form of CRC-32C: that register with the complements on both sides, for the generator of Crc32cGenerator |
| CrcTabular.Crc32 | common/src/crc.cpp:44-53 | the same for the generator of Crc32Generator |
| CrcTabular.ChecksumChains | common/src/crc.cpp:39-51 | the checksum of a second piece begun from that of the first is the checksum of both |
| CrcDivision.Division | common/src/include/crc32c_tabular.h:165-172 | the equation of long division: message and starting register, each moved up past what follows, are a multiple of the generator plus the register |
| CrcDivision.CrcIsRemainder | common/src/include/crc32c_tabular.h:165-196 | the register after any message is the one and only remainder, below x^32, of the message times x^32 plus the starting register times x^(8 length), modulo the generator |
| CrcDivision.Crc32cGenerator | common/include/sg/crc.h:16-17 | the feedback word of CRC-32C holds the exponents of 0x1EDC6F41 (RFC 3720, section 12.1) |
| CrcDivision.Crc32Generator | common/src/crc.cpp:48-51 | the feedback word of CRC-32 holds the exponents of its generator (RFC 2083, section 3.4) |
| CrcDivision.Residue | common/include/sg/crc.h:19-21 | the complements on both sides: a message followed by its own checksum leaves one register whatever the message |
| CrcDivision.Crc32cOfDigitOne | test/src/crc.cpp:23-28 | the CRC-32C of the character 1 is 0x90F599E3 |
| CrcDivision.Crc32OfDigitOne | common/src/crc.cpp:44-53 | the CRC-32 of the character 1 is 0x83DCEFB7 |
| XnModP.Xnmodp | common/src/include/crc32c_hardware_intel.h:34-51 | the halving and squaring loops terminate and return x^n mod P, the remainder of PowerIsRemainder, for every 64-bit n and every polynomial |
| CrcDivision.PowerIsRemainder | common/src/include/crc32c_hardware_intel.h:34 | what it returns is the one and only remainder of x^n modulo the generator |
| CrcDivision.XToThe32 | common/src/include/crc32c_hardware_intel.h:34-51 | x^32 is the generator less its highest power |
| XnModP.Push | common/src/include/crc32c_hardware_intel.h:37-39 | a push loses no bit, keeps the sentinel in the word and leaves the unwound exponent unchanged |
| XnModP.Pop | common/src/include/crc32c_hardware_intel.h:45-49 | a pop squares the accumulator into the power 2m + 33 - low that the halving loop came from |
| XnModP.LowPower | common/src/include/crc32c_hardware_intel.h:41-44 | small exponents directly: a shift and whole zero words |
| XnModP.ProductShifts | common/src/include/crc32c_hardware_intel.h:47-48 | the CRC of a carry-less product with x^m is m + 33 more steps of the other factor |
| XnModP.Feed64Linear | common/src/include/crc32c_hardware_intel.h:48 | the 64-bit CRC instruction is linear over XOR in register and message together |
| CrcMerge.Feed64IsCrc | common/src/include/crc32c_hardware_intel.h:142-144 | the 64-bit CRC instruction is the bit-at-a-time CRC of its eight bytes |
| CrcMerge.CrcShiftMeaning | common/src/include/crc32c_hardware_intel.h:53-55 | `crc_shift` is the product whose CRC stands for that many zero bytes |
| CrcMerge.StreamMerge | common/src/include/crc32c_hardware_intel.h:131-139 | three stream registers begun from zero, and the vector register, merge into the register of the whole message |
| SessionVars.TcpSession.Write | net/src/tcp_session.cpp:107-132 | refused exactly when not running, full exactly when running and at the mark, else queued, counted, and a writer asked for exactly when none is scheduled |
| SessionVars.TcpSession.StopAsync | net/src/tcp_session.cpp:190-206 | only a running session takes the request, and the caller closes exactly when no writer is scheduled |
| SessionVars.TcpSession.WriterRound | net/src/tcp_session.cpp:357-371 | the whole queue becomes the batch, its bytes move between the counters, an empty one ends the right to write |
| SessionProtocol.StepKeeps | net/src/tcp_session.cpp:51-423 | every step of every thread keeps the session invariant |
| SessionProtocol.RunKeeps | net/src/tcp_session.cpp:51-423 | every reachable state of every interleaving satisfies it |
| SessionProtocol.StreamConserved | net/src/tcp_session.cpp:107-177 | sent, in flight and queued are the accepted messages in lock order; the counters match; one writer holds a batch; pending bytes stay under the mark but for one message |
| SessionProtocol.StopIsOwed | net/src/tcp_session.cpp:190-214 | while a stop is requested some party owes a close, and at most one more batch starts and two finish |
| SessionProtocol.DebtIsPaid | net/src/tcp_session.cpp:352-423 | the party keeps owing, whoever else moves, and each own step brings it nearer than seven steps to the close |
| SessionProtocol.DirectCloseDrains | net/src/tcp_session.cpp:204-213 | a stop that closes at once finds everything sent and nothing queued or in flight |
| SessionProtocol.EmptyRoundDrains | net/src/tcp_session.cpp:357-380 | so does a writer round after the request that finds the queue empty |
| SessionProtocol.DrainedStays | net/src/tcp_session.cpp:112-114 | once drained and no longer running the session stays drained along every later run |
| SessionProtocol.StopDrainsIff | net/include/sg/net/tcp_session.h:84-89 | "queued writes are drained first": from a running session that nobody is closing, every graceful run after `stop_async` ends drained, if and only if the call does not find a writer between its empty check and its state load with a message accepted since |
| SessionProtocol.SealedForGood | net/src/tcp_session.cpp:262-272 | after an early close no later run, graceful or not, sends another message |
| SessionProtocol.DrainCanLose | net/src/tcp_session.cpp:358-380 | a run with no error and no forced stop in which an accepted message is queued when the session closes, and no run from there ever sends it |
| SessionProtocol.RunMovesForward | net/src/tcp_session.cpp:245-293 | along every run the state only moves from running to stop requested, stopping, stopped |
| SessionProtocol.TearDownOnce | net/src/tcp_session.cpp:262-293 | at most one teardown however closers race; `onDisconnected` once if it was owed when the teardown ran, else never |
| SessionProgress.WriteAcceptsIff | net/src/tcp_session.cpp:107-132 | a message is accepted, last in the queue, if and only if the session runs and, when it has a mark, queue and batch together are under it; a writer is spawned exactly when none is at work; otherwise nothing changes |
| SessionProgress.IdleAccepts | net/src/tcp_session.cpp:116-121 | no message is too long for an idle session, whatever the mark |
| SessionProgress.StopTakes | net/src/tcp_session.cpp:190-206 | a stop takes effect exactly on a running session and leaves the stream as it was |
| SessionProgress.CloseCompletes | net/src/tcp_session.cpp:245-293 | whoever owes a close, steps of writers and closers alone, none a failure, lead to the end: torn down once, stopped, called back exactly when it was owed |
| SessionProgress.StopCompletes | net/src/tcp_session.cpp:190-214 | so a stop of any running session can be carried through, with everything accepted sent under the condition of StopDrainsIff |
| SessionProgress.ForcedCompletes | net/src/tcp_session.cpp:212-214 | so can a close forced by a caller, by a read that ends or by a write that fails |
| SessionProgress.FailedStartCompletes | net/src/tcp_session.cpp:86-104 | and the close after a start that fails |
| SessionProgress.OwedIsPaid | net/src/tcp_session.cpp:280-283 | a callback owed before the teardown is paid by it in every run |
| SessionProgress.OwedIffStored | net/src/tcp_session.cpp:77-79 | it is owed if and only if some start has stored so; a session none did for calls nobody back |
| SessionProgress.ConnectedIsCalledBack | net/src/tcp_session.cpp:77-81 | a start that gets to `onConnected` before the teardown is followed by exactly one `onDisconnected` in every run that ends stopped |
| SessionProgress.StaysUp | net/src/tcp_session.cpp:376-380 | nothing closes unasked: a running session stays up in every run in which nobody stops it, the peer stays and nothing fails; a writer that finds the queue empty just ends |
| SessionProgress.HistoryCounts | net/src/tcp_session.cpp:262-423 | the counters these theorems speak of count the steps of the run: batches taken and written while a stop is pending, teardowns, callbacks |
| ServerProtocol.StepKeeps | net/src/tcp_server.cpp:127-583 | every step keeps the server invariant, unless a start overlaps a stopping thread that has no context |
| ServerProtocol.ServerQuiesces | net/src/tcp_server.cpp:164-192 | without such an overlap: `m_active_sessions` counts registered sessions, the map holds only those not yet released, past both waits and whenever not running there is neither listener nor session, and a stop waits only for sessions told to stop |
| ServerProtocol.QuietUntilPublished | net/src/tcp_server.cpp:182-192 | once a running server's stop is past both waits it stays empty, whatever else happens, until `m_running` is cleared |
| ServerProtocol.MoveKeepsCounts | net/src/tcp_server.cpp:373-494 | a listener keeps its count and the session counts in step on every path, throwing ones included |
| ServerProtocol.OrphanFollowsFailedStart | net/src/tcp_server.cpp:262-280 | only a start that threw leaves a server whose stop would find no context |
| ServerProtocol.StopIsSafeIff | net/src/tcp_server.cpp:127-193 | after a stop request the server, in every later run with no further orphaned stop, calls itself stopped only when empty, if and only if there is a context, or a stop was requested before and its thread is done |
| ServerProtocol.CollisionLies | net/src/tcp_server.cpp:127-281 | the overlap the invariant leaves out is never harmless: some later run reports stopped while it listens |
| ServerProtocol.FailedStartRun | net/src/tcp_server.cpp:262-280 | a first start that throws reaches a state in which a stop would find no context |
| ServerProtocol.StopEndsNextStart | net/src/tcp_server.cpp:127-281 | a run from the beginning - a start that throws, a stop, a second start - that ends reported stopped while it listens |
| ServerProtocol.ThreadLies | net/src/tcp_server.cpp:134-193 | a stopping thread with no context, at whatever point it stands, can clear `m_running` while the next start listens |
| ServerProgress.StopTakes | net/src/tcp_server.cpp:127-134 | a stop of a server that is up, by a caller or a failing listener, sets a stopping thread to work |
| ServerProgress.WorkStays | net/src/tcp_server.cpp:134-193 | in every later run that thread stays at work until it publishes, each of its steps nearer to the end, seven at most |
| ServerProgress.StopCompletes | net/src/tcp_server.cpp:134-193 | whatever listeners, sessions and the thread were about to do, steps of theirs alone lead to a server that is empty and says so |
| ServerProgress.StartCompletes | net/src/tcp_server.cpp:200-281 | from a server at rest the regions of a start end with one listener up for each acceptor, and nothing else |
| ServerProgress.FailedStartRests | net/src/tcp_server.cpp:262-280 | a start that throws, wherever it does, leaves an empty server from which another start can come |
| ServerProgress.ConnectionIsServed | net/src/tcp_server.cpp:387-480 | a listener that is not stopped takes a connection in under an id no open session has, counts it, enters it and comes back to the top |
| ServerProgress.FailedEntryIsAsked | net/src/tcp_server.cpp:475-482 | a connection that cannot be entered is told to stop and stays counted until it is released |
| ServerProgress.FatalAcceptStops | net/src/tcp_server.cpp:391-399 | an accept error that cannot be retried stops the server |
| ServerProgress.DrainStops | net/src/tcp_server.cpp:186-192 | a context that runs out of work leaves an empty server that reports itself running and takes a stop as before |
| PoolProtocol.StepKeeps | net/src/asio_io_pool.cpp:41-163 | every step keeps the pool invariant |
| PoolProtocol.CyclesAreDisjoint | net/src/asio_io_pool.cpp:41-108 | at most one cycle is in flight, `run` and the monitor never own the worker vector together, the stopped callback runs once a completed cycle |
| PoolProtocol.CallbackFollowsWorkers | net/src/asio_io_pool.cpp:82-88 | the callback begins only after every worker of its cycle has returned |
| PoolProtocol.NotStrandedIff | net/src/asio_io_pool.cpp:51-75 | a handler queued when `run` is called is taken, or faces a full set of live workers when `run` has returned, in every run without a stop or a failed thread creation, if and only if the call does not fall between a worker's finding no work left and its setting the stopped flag |
| PoolProtocol.CanWaver | net/src/asio_io_pool.cpp:51-61 | a pool without a guard does reach that gap with a handler queued |
| PoolProtocol.GuardedIsSafe | net/src/asio_io_pool.cpp:63-65 | a pool with a work guard never strands a handler: no call of `run` finds it in that gap |
| PoolProtocol.CallbackStopReturnsIff | net/src/asio_io_pool.cpp:138-152 | `stop_async` from the stopped callback is not blocked for ever in any later run in which no other `run` begins, if and only if no `run` is waiting with the mutex; and exactly then some such run lets it return |
| PoolProtocol.CallbackStopReturns | net/src/asio_io_pool.cpp:138-152 | the steps of the holder and of the callback alone bring the call back when no `run` waits |
| PoolProtocol.CallbackStopExposed | net/src/asio_io_pool.cpp:49-61 | from every state in which the callback is asking, a `run` that begins first leads to the mutual wait |
| PoolProtocol.StuckForever | net/src/asio_io_pool.cpp:57-61 | once a `run` waits for the callback that waits for it, no later run resolves it |
| PoolProtocol.CallbackStopCanBlock | net/include/sg/net/asio_io_pool.h:40-46 | a run that reaches this, though the header calls the call a safe no-op |
| PoolProgress.RunCompletes | net/src/asio_io_pool.cpp:41-97 | `run` on a pool that serves changes nothing; otherwise it waits out the cycle that ends, and comes back with a full set of workers on a fresh context, what is queued still queued |
| PoolProgress.StopStops | net/src/asio_io_pool.cpp:138-152 | `stop_async` on an active pool drops the guard and stops the context, on any other does nothing |
| PoolProgress.CycleEnds | net/src/asio_io_pool.cpp:82-95 | once its context has stopped a cycle runs its course: workers return, the callback is called if it was still due, the end is published |
| PoolProgress.StopCompletes | net/src/asio_io_pool.cpp:138-163 | so a stop takes the pool to rest |
| PoolProgress.FailedRunRests | net/src/asio_io_pool.cpp:98-107 | a thread that cannot be created takes the run back: what was started is joined, no callback is called, another run can follow |
| PoolProgress.HandlerIsTaken | net/src/asio_io_pool.cpp:75 | a pool that serves takes any handler queued |
| PoolProgress.HandlersConserved | net/src/asio_io_pool.cpp:41-152 | over any run a handler posted has been taken once or is still queued, never both |
| PoolProgress.StoppedTakesNone | net/src/asio_io_pool.cpp:148-152 | once the context has stopped no handler is taken until another run restarts it |
| PoolProgress.HistoryCounts | net/src/asio_io_pool.cpp:41-108 | the counters count the steps of the run: cycles claimed, given up, and callbacks called |
| WorkerProtocol.StopsOnTarget | common/src/worker.cpp:86-101 | once a target is stored, and undisturbed, the worker leaves its loop no earlier than the target and begins no iteration beyond it but the next one |
| WorkerProgress.PlanAims | common/src/worker.cpp:86-98 | a request for n more iterations aims n on from the counter it loads, or at the last count below the sentinel |
| WorkerProgress.RequestIsHonoured | common/src/worker.cpp:86-101 | whatever happens before its target is stored, the worker then leaves its loop no earlier than n iterations after the load, and passes that by no more than the iteration under way or due |
| WorkerProgress.RequestIsObeyed | common/src/worker.cpp:156-171 | and the thread by itself does leave it, on that very iteration when it is still to come |
| WorkerProtocol.StepKeeps | common/src/worker.cpp:35-208 | every step of the worker and its callers keeps the invariant |
| WorkerProtocol.NothingIsLost | common/src/worker.cpp:138-208 | a worker blocked on an empty semaphore, with no caller between store and notify, has seen the requested state, has no stop pending and is owed iterations |
| WorkerProgress.StateIsEntered | common/include/sg/state_machine.h:146-181 | while iterations remain and no stop is requested the thread by itself comes to a tick in the requested state |
| WorkerProgress.SetStateIsObeyed | common/include/sg/state_machine.h:111-114 | so after `set_state` it comes to a tick in that state, and waits for no time-out once notified |
| WorkerProgress.StopIsObeyed | common/src/worker.cpp:81-84 | a stop requested at any time can be obeyed by the thread alone, which begins no further iteration, and waits for no time-out once notified |
| WorkerProgress.WaitTakesAll | common/src/worker.cpp:197-204 | however many notifications came they make for one early tick: the wait ends only with all of them taken |
| WorkerProgress.NotificationsConserved | common/src/worker.cpp:197-210 | over any run that replaces no worker, notifications given are consumed or still in the semaphore, and every call that stored something has notified or is yet to |
| WorkerProtocol.IterationsAreBounded | common/src/worker.cpp:156-171 | the counter never wraps, counts the ticks, and passes a stored target by at most the iteration under way |
| WorkerProtocol.TraceIsAccepted | common/include/sg/state_machine.h:146-201 | in every interleaving callbacks come in the order of the grammar up to the last exit, which is due to the state entered last while no start has begun |
| WorkerProtocol.StartIsSafeIff | common/include/sg/state_machine.h:78-91 | a start that `is_running` admits leaves the trace of the run before it correct in every later run, if and only if that run's exit callbacks have begun or its state is the new initial one |
| WorkerProtocol.StartCanMisdirectExit | common/include/sg/state_machine.h:78-91 | a start that trusts `is_running` makes the old run exit a state it was never in |
| StateMachines.RunAccepted | common/include/sg/state_machine.h:146-201 | a run is Start, entry, ticks with exit and entry at each change, exit, Stop, if and only if something ends it and every state asked for by then had been added; and where it stands otherwise |
| StateTrace.ParseIff | common/include/sg/state_machine.h:146-201 | the grammar read pair by pair: a trace is accepted if and only if it opens with Start and the initial state and each block may follow the one before it |
| StateMachines.EntersFirstIff | common/src/worker.cpp:156 | the initial state is entered before it is exited if and only if no stop comes before the first tick |
| StateMachines.TickAccepted | common/include/sg/state_machine.h:146-181 | a tick takes the machine from rest in one state to rest in the requested one, each tick callback in the state entered last |
| StateMachines.CallsCount | common/include/sg/state_machine.h:146-201 | over any run each callback that was added is called exactly as often as there are blocks of its kind for its state, with the new and old state it is due, and nothing else is called |
| StateMachines.RunTicksAsAsked | common/src/worker.cpp:156-171 | each iteration ticks once, in the state it was asked for |
| StateMachines.Machine.Invoke | common/include/sg/state_machine.h:154-193 | the calls appended are those of the kind and state: as many as were added, in order, entries and exits with the new and old state; nothing for a state that was never added |
| StateMachines.Machine.TickAction | common/include/sg/state_machine.h:146-181 | the callbacks and the new state of one tick, also when a state is missing; the last calls are the tick callbacks of the requested state |
| StateMachines.Machine.WorkerOnStart | common/include/sg/state_machine.h:183-190 | the start callback, with the entry callbacks left to the first tick |
| StateMachines.Machine.WorkerOnStop | common/include/sg/state_machine.h:191-201 | exit callbacks of the current state, then the stop callback |
| StateMachines.Machine.Action | common/src/worker.cpp:138-195 | the worker's loop produces the blocks of the run, whatever each iteration loads |
| Gregorian.DateRoundTrip | common/include/sg/internal/date/date.h:2976-2993 | a valid date survives the trip through its day number |
| Gregorian.DaysRoundTrip | common/include/sg/internal/date/date.h:3090-3109 | every day number names a valid date and comes back |
| Gregorian.YearOfEraBounds | common/include/sg/internal/date/date.h:3102 | the chain of divisions lands in the year of the era that contains the day |
| Gregorian.NextDayCounts | common/include/sg/internal/date/date.h:2740-2754 | the next day by the month and leap rules is one more in the count |
| Gregorian.DaysOrderDates | common/include/sg/internal/date/date.h:3036-3045 | day numbers are ordered exactly as dates are |
| Gregorian.Epoch | common/include/sg/internal/date/date.h:2992 | day 0 is 1970-01-01 |
| Weekdays.WeekdayFromDaysIsWeekday | common/include/sg/internal/date/date.h:1826-1833 | the unsigned branch is the day of the week for every 32-bit day number |
| Weekdays.WeekdayGroup | common/include/sg/internal/date/date.h:1908-1926 | weekday difference and sum undo each other on a cycle of seven |
| Weekdays.WeekdayAdvances | common/include/sg/internal/date/date.h:1918-1926 | n days later is n weekdays later |
| Weekdays.NthDaysRoundTrip | common/include/sg/internal/date/date.h:3279-3287 | every day is a valid n-th weekday of its month and comes back |
| Weekdays.NthRoundTrip | common/include/sg/internal/date/date.h:3265-3298 | every valid n-th weekday comes back from its day number, the validity test being exact |
| IsoWeek.IsoWeekdayMeaning | common/include/sg/internal/date/iso_week.h:438-445 | Monday is 1 and Sunday 7 on every day number |
| IsoWeek.IsoDifferenceMeaning | common/include/sg/internal/date/iso_week.h:524-531 | the unsigned difference is the days forward, with no further reduction needed |
| IsoWeek.YearStartMeaning | common/include/sg/internal/date/iso_week.h:1518 | week 1 begins on the Monday at most three days from January 1 |
| IsoWeek.YearContains | common/include/sg/internal/date/iso_week.h:1517-1523 | the year picked, with its one correction, is the one whose weeks contain the day |
| IsoWeek.IsoDaysRoundTrip | common/include/sg/internal/date/iso_week.h:1510-1527 | every day has a valid week date and comes back from it |
| IsoWeek.IsoRoundTrip | common/include/sg/internal/date/iso_week.h:1486-1508 | every valid week date comes back from its day number |
| IsoWeek.YearSpan | common/include/sg/internal/date/iso_week.h:604-613 | a year the test calls long has 53 weeks, any other 52 |
| IsoWeek.LongYears | common/include/sg/internal/date/iso_week.h:604-613 | a week 53 exists exactly in those years: the ones that start on a Thursday, or on a Wednesday when leap |
| Islamic.DateRoundTrip | common/include/sg/internal/date/islamic.h:2139-2156 | a valid date survives the trip through its day number |
| Islamic.DaysRoundTrip | common/include/sg/internal/date/islamic.h:2249-2267 | every day number names a valid date and comes back |
| Islamic.TermStepsAtLeapYears | common/include/sg/internal/date/islamic.h:1049-1074 | the division term of the day count steps exactly at the years listed as leap |
| Islamic.YearUnique | common/include/sg/internal/date/islamic.h:2261 | the rounded division inverts the year starts |
| Islamic.NextDayCounts | common/include/sg/internal/date/islamic.h:1929-1938 | the next day by the month and leap rules is one more in the count |
| Islamic.DaysOrderDates | common/include/sg/internal/date/islamic.h:2139-2180 | day numbers are ordered exactly as valid dates are |
| Islamic.Epoch | common/include/sg/internal/date/islamic.h:2155 | both calendars count from one day: 1 Muharram 1 is 19 July 622 |
| RollingBuffer.RunShowsTail | common/include/sg/rolling_contiguous_buffer.h:120-206 | after any run of push, append, resize and clear exactly the most recent items still kept are shown: all that fit when never resized, and otherwise the count that filling, trimming and clearing leave |
| RollingBuffer.Buffer.Perform | common/include/sg/rolling_contiguous_buffer.h:120-206 | each operation of the buffer is the step that theorem speaks of |
| RollingBuffer.Buffer.PerformAll | common/include/sg/rolling_contiguous_buffer.h:120-206 | any sequence of operations leaves the buffer as that theorem describes |
| RollingBuffer.ShiftingIsAmortised | common/include/sg/rolling_contiguous_buffer.h:56-92 | with a reserve of at least the size, items shifted plus the end position never exceed items inserted |
| RollingBuffer.ShiftingWithoutReserve | common/include/sg/rolling_contiguous_buffer.h:56-92 | without reserve every push past the first `size` shifts all but one item |
| RollingBuffer.Buffer.AdvancePos | common/include/sg/rolling_contiguous_buffer.h:32-39 | the window ends with the last item and is no longer than the size |
| RollingBuffer.Buffer.EnsureSpaceMove | common/include/sg/rolling_contiguous_buffer.h:42-54 | a new store holding exactly the items still needed |
| RollingBuffer.Buffer.ShiftInPlace | common/include/sg/rolling_contiguous_buffer.h:73-84 | the same in place, source and destination disjoint |
| RollingBuffer.Buffer.EnsureSpace | common/include/sg/rolling_contiguous_buffer.h:56-98 | room is made, only items pushed out are dropped, and storage stays within the bound |
| RollingBuffer.Buffer.PushBack | common/include/sg/rolling_contiguous_buffer.h:120-136 | the last `size` items of what was shown and the new one |
| RollingBuffer.Buffer.Append | common/include/sg/rolling_contiguous_buffer.h:138-156 | the last `size` items of what was shown and the range, however long |
| RollingBuffer.Buffer.Resize | common/include/sg/rolling_contiguous_buffer.h:184-200 | the last items that fit the new size |
| RollingBuffer.Buffer.Clear | common/include/sg/rolling_contiguous_buffer.h:202-206 | nothing is shown, sizes unchanged |
| SyncReader.StreamConserved | net/src/tcp_client_sync.cpp:70-148 | for any mix of reads and time-outs, strings returned and what is buffered are the bytes taken off the socket, in order |
| SyncReader.CallConserves | net/src/tcp_client_sync.cpp:82-148 | one call hands over a prefix of what it had and took, and keeps the rest |
| SyncReader.ReadIsExact | net/src/tcp_client_sync.cpp:129-148 | a sized read on an open connection succeeds if and only if the bytes are buffered or brought, and returns exactly that many |
| SyncReader.ReadUntilStopsAtFirst | net/src/tcp_client_sync.cpp:82-101 | a delimited read succeeds if and only if the delimiter is in what is buffered and brought, and ends with the first one |
| SyncReader.ReadSomeReturnsAll | net/src/tcp_client_sync.cpp:103-127 | `read_some` returns everything buffered, else everything brought, and on an open connection fails only with nothing to return |
| SyncReader.FailureIsReported | net/src/tcp_client_sync.cpp:70-148 | the error reported is the socket's own; a closed connection is refused, and only that |
| SyncReader.FailureKeepsBytes | net/src/tcp_client_sync.cpp:70-80 | a failed call loses nothing, and only a network error drops the connection |
| SyncReader.Client.Connect | net/src/tcp_client_sync.cpp:150-171 | refused when connected; otherwise leftovers of an earlier connection are dropped |
| SyncReader.Client.Disconnect | net/src/tcp_client_sync.cpp:172-181 | the socket is closed, and what is buffered stays |
| SyncReader.Client.ThrowOnReadError | net/src/tcp_client_sync.cpp:70-80 | a time-out keeps the connection, any other error closes it |
| SyncReader.Client.Read | net/src/tcp_client_sync.cpp:129-148 | the method is the step the stream theorem speaks of |
| SyncReader.Client.ReadUntil | net/src/tcp_client_sync.cpp:82-101 | the method is the step the stream theorem speaks of |
| SyncReader.Client.ReadSome | net/src/tcp_client_sync.cpp:103-127 | the method is the step the stream theorem speaks of |

## Left out

- CrcTabular.Kernel1: asks for fewer than 2^32 bytes, exactly the messages on which it terminates: its 32-bit counter never reaches a longer message's end. The dispatcher only hands it a short tail, and its own theorem has no bound.
- CrcTabular.Kernel2: the same bound, for the same reason: a longer message is passed on as a tail of 2^32 bytes or more (TailOffsetIff).
- CrcTabular.Kernel4: the same.
- CrcMerge.StreamMerge: takes the register of the vector stream as given; the carry-less folding loop and its fixed constants are not modelled.
- Big-endian branches of the CRC kernels, the ARM forms and the alignment prologue of the Intel form.
- SessionProtocol.RunKeeps: leaves out recorded exceptions and socket options; a callback's own calls are those of any other thread, so more interleavings are allowed than can happen; `pending_bytes` read outside the mutex may mix two moments.
- SessionProtocol.StopDrainsIff: speaks of a session nobody is closing yet, since a close already under way does not drain.
- ServerProtocol.StepKeeps: excludes a start that overlaps a stopping thread with no context, for which the invariant is false (CollisionLies); StopIsSafeIff gives the exact condition at the stop.
- ServerProtocol.ServerQuiesces: a pool whose `run` throws after its first workers have accepted connections is taken to have run no handler; back-off timers and accept callbacks only delay a listener.
- PoolProtocol.NotStrandedIff: assumes of `io_context` that its last worker to find no work left sets the stopped flag, in a second step, before it leaves `run`.
- PoolProgress.RunCompletes: leaves out a call that finds the stopped callback inside its own `stop_async`; the two can then block each other for good (StuckForever, CallbackStopReturnsIff). StopCompletes and CycleEnds leave out the same callback, which CallbackStopReturns brings back.
- WorkerProtocol.NothingIsLost: assumes that no call runs beside `start`, which replaces the worker without protection, that added states stay as they are and that callbacks do not throw; the semaphore counts without bound.
- WorkerProtocol.StartIsSafeIff: takes the loads of the current state in `worker_on_stop` as one step.
- StateMachines.Machine.Action: both machine callbacks are set, callbacks do not throw and do not change the callback lists.
- Gregorian.DaysRoundTrip: years and day numbers are unbounded integers; the 16-bit year field and 32-bit day storage are not modelled, nor is the year test of `ok` that only guards that field. The same holds for the week and Islamic dates.
- RollingBuffer.Buffer.EnsureSpace: the bound is one item when size and reserve are both zero, and relies on a vector that grows to at most twice its size or what is needed.
- SyncReader.StreamConserved: the three asynchronous reads are contracts: bytes in order, a sized read stops at its size, a delimited read succeeds when the delimiter is in the buffer.
- Fairness of the scheduler: that a close, stop, run or tick "can be carried through" means that some run of the parties' own steps does it, and the debt theorems (DebtIsPaid, WorkStays) bound how many of those steps it takes; that a scheduler takes them is not modelled.
- The four protocols are transition systems over values: aliasing of the objects, memory orderings weaker than sequential consistency, and failures of allocation or thread creation outside the pool's catch block are not captured.
- Writing through `tcp_client_sync`, the asynchronous client, name resolution and the thread wrapper around a connection.
- Date streams, month and year arithmetic with carry, time zones.
- File writer, bounds, byte swaps, buffers, enumerations, process, locale, uuid and user-interface helpers.
