# uthread: a model of the user-level thread runtime

The repository is a thread runtime in one C file, with two modes. In 1:N mode all threads share one kernel
thread, a timer signal preempts user code, and every queue except the global thread list is threaded through
the one `next` field of the thread control block. In M:N mode several virtual processors run threads from
a shared queue and from local queues of their own, and have code to steal from each other. Mutexes, counting semaphores, channels, sleeping, polling for I/O and a
trace recorder are built on top; a browser page turns a recorded trace into bars.

## How the model is layered

| file | what it holds |
|---|---|
| `WaitObjects` | mutex and semaphore as values, and what holds over every run of calls on one of them |
| `Kernel`, `KernelSteps` | the 1:N scheduler as a state machine; the system invariant; every operation keeps it |
| `KernelRuns`, `KernelTime`, `KernelEffects`, `KernelTrace`, `KernelLimits` | what follows over whole runs: location, waiting times, hand-off, shutdown, sleeping, the trace, starvation |
| `Chains`, `Wiring`, `RuntimeFacts`, `Runtime` | the heap: control blocks and pointer-walking methods; each entry point is proved to do to the heap what one operation of `Kernel` does to the state |
| `Channel`, `Pipeline`, `BoundedBuffer` | the channel protocol step by step, and the two client programs over it |
| `ChannelOnScheduler` | a channel used by the threads of the 1:N scheduler: its runs are channel runs |
| `WorkStealing` | the M:N run loop: every lock acquisition and release is a step |
| `Stealing` | theft in that loop: what one does, that the program's own runs have none, and what follows for its threads |
| `Shutdown` | how the M:N runtime ends: every processor leaves its loop and `uthread_mn_run` returns |
| `Peterson`, `TraceBuffer`, `Trace`, `GanttViewer` | Peterson's lock, the lock-free recorder, the event vocabulary, the viewer's pairing |

**Runs.** In 1:N mode a section that the source runs with SIGALRM blocked is one operation. A preempting yield
is the operation `OpYield`, which may stand between any two operations, so a run is any sequence of enabled
operations, whoever performs them. What `epoll_wait` reports (any subset of the registered threads, in any
order) and what the clock says (never less than before) are parameters of the operations; so are thread numbers
and whether memory can be allocated. The idle loops are one operation per round. Creation histories, grant
lists, dispatch lists and the recorded trace are history: no operation reads them.

**Heap and values.** The class `Runtime` has the source's own fields, and a ghost field `k` that holds the value
of the state machine. `Valid()` says that the pointers are what `k` says and that `k` satisfies the system
invariant. Each entry point ensures `Valid()` and `k == Apply(old(k), op)`, so all theorems about runs of the
state machine are theorems about the pointer code.

**What callers owe.** A channel's capacity is at least 1; a semaphore starts at 0 or more; only the owner unlocks
a mutex; wait objects are initialised once. The policy is round robin (also when none is set) or priority.

**Where the documentation and the code disagree** the model follows the code. docs/CODEBASE_TOUR.md:132 has
`check_sleep_list` scan the global thread list, but the code walks a list of sleepers. docs/CODEBASE_TOUR.md:124
calls the trace buffer circular, but the code stops recording when it is full. docs/CODEBASE_TOUR.md:130 has
`mn_exit` call `mn_yield`, but the code returns to the virtual processor directly. docs/design.md:17 says that
age as a tie-breaker prevents starvation among threads of equal priority; `KernelLimits` proves when exactly
it does not, and that it does not in a run of two threads of equal priority. src/uthread.c:467 and the repository's README.md:46 say
that a processor with an empty queue steals from another one, but a local queue only ever holds the thread that has
just yielded on its own processor, so the test at src/uthread.c:524 passes over every victim: the code never
steals (`NeverSteals`), no thread ever changes processor (`NeverMoves`), a thread that yields is the next that its
processor dispatches (`YieldsToItself`), and the shared queue waits for as long as every processor has a thread that
only yields (`SharedQueueWaits`).

**Properties that hold only under a condition.** Four promises are not kept on all inputs; each has its condition
and an input that fails.

- A process ends only when every thread has exited, provided there is an epoll descriptor (`HaltSound`). Without
  one, `HaltExactly` says when it ends early, and `EndsAsleep` is a run that ends under a sleeping thread.
- Under the priority policy a ready thread, also one of the same priority, is passed over for as long as a thread
  that precedes it keeps yielding (`RepicksExactly`, `Starvation`, `StarvingStart`).
- The bounded-buffer program ends properly if and only if the producers make at least as many items as are
  wanted and at most as many more as fit into the buffer (`Verdict`, `ExactlyOnce`); with the program's quota of
  half the total each, if and only if the total is even (`HalfQuota`). `OneItemHangs` is a run with a total of 1.
- A theft does what the source says it does wherever one happens (`StealsHalf`, `LoopEnds`, `AppendsHalf`,
  `StealReturns`, over runs from any consistent state, with threads spread over the local queues in any way;
  `TheftCompletes` is one). From a state in which no local queue has two threads, and none has one while its
  processor is busy, no theft ever begins (`TameForGood`), and the program starts in such a state. `SecondNeverRuns` is a run of any length in which a thread of the shared queue
  is not dispatched.

## Model

| member | source | states |
|---|---|---|
| `WaitObjects.MutexRunKeeps` | src/uthread.c:888-927 | over any run of lock and unlock calls: at most one owner, `locked` exactly when there is one, waiters only while locked, and the order of asking is only appended to |
| `WaitObjects.MutualExclusion` | src/uthread.c:894-927 | of the threads that have called lock and not unlocked, at most one is not waiting, and it is the owner |
| `WaitObjects.MutexHandOff` | src/uthread.c:913-927 | hand-off is FIFO without barging: the thread at wait position k owns the lock after exactly k + 1 further unlocks |
| `WaitObjects.MutexStillWaiting` | src/uthread.c:894-927 | until then it waits, moved up one place per unlock |
| `WaitObjects.SemRunKeeps` | src/uthread.c:933-972 | granted waits + count = initial count + posts; the count is never negative; a waiter means count 0; grants follow the order of asking |
| `WaitObjects.SemHandOff` | src/uthread.c:939-972 | no lost wake-up, no overtaking: the thread at wait position k has its token if and only if k + 1 posts have happened since |
| `KernelSteps.ApplyKeeps` | src/uthread.c:708-1072 | every operation (create, yield, exit, lock, unlock, wait, post, sleep, I/O block, a polling round, policy change, initialisation) keeps the system invariant: lists duplicate-free, disjoint and in step with each thread's state |
| `KernelSteps.PassKeeps` | src/uthread.c:416-455 | polling for I/O and for expired sleepers keeps the invariant and changes only lists, states, clock and trace |
| `KernelSteps.DispatchKeeps` | src/uthread.c:818-820 | handing the CPU to a thread of the ready queue keeps the invariant |
| `KernelRuns.BootOk` | src/uthread.c:650-706 | the state `uthread_init` leaves satisfies the invariant |
| `KernelRuns.Located` | src/uthread.c:764-1026 | in every state of every run: RUNNING is the current thread, READY is in the ready queue, BLOCKED is in exactly one wait list, IO_BLOCKED is in exactly one of sleep list and epoll set, both directions, and no list has duplicates |
| `KernelRuns.FreedUnreachable` | src/uthread.c:357-368 | a created thread that has left the global list has exited, is not current, and is in no queue |
| `KernelRuns.StepOrder` | src/uthread.c:230-249 | under round robin each operation only appends to the order of admission to the CPU |
| `KernelRuns.BoundedWaiting` | src/uthread.c:764-874 | a READY thread at position p is exactly the (p + 1)-st thread dispatched from then on, whatever is created, woken or yields meanwhile |
| `KernelRuns.BestIsLeast` | src/uthread.c:389-405 | whatever the queue order, every other thread of the queue has a larger priority number than the scan's choice, or the same and a larger creation number |
| `KernelRuns.PriorityDispatch` | src/uthread.c:389-405 | in every run under the priority policy, when a thread is dispatched every other READY thread has a larger priority number, or the same and a larger creation number |
| `KernelRuns.PolicyLastSet` | src/uthread.c:880-882 | in every run the policy in force is the one last set |
| `KernelRuns.HaltSound` | src/uthread.c:842-867 | with an epoll descriptor the process ends only in `uthread_exit`, and only when every thread ever created has exited |
| `KernelRuns.YieldDispatches` | src/uthread.c:778-791 | a running thread that yields or is preempted always leads to a dispatch: `schedule_next` returns NULL only to a thread that waits |
| `KernelRuns.WaitsOfApply` | src/uthread.c:894-972 | an operation changes at most the one wait object it is called on, and by one call; scheduling touches none |
| `KernelRuns.WaitObjectStep` | src/uthread.c:894-972 | seen from one mutex or semaphore every operation is one legal call by a thread that is not waiting, or nothing |
| `KernelRuns.MutexLife` | src/uthread.c:894-927 | the states of one mutex along any run of the system are a mutex run |
| `KernelRuns.HandOff` | src/uthread.c:913-927 | FIFO hand-off in the whole system, whatever else runs meanwhile |
| `KernelRuns.Exclusion` | src/uthread.c:894-927 | mutual exclusion in the whole system, counting a thread that owns the lock without having run yet |
| `KernelRuns.SemLife` | src/uthread.c:939-972 | the states of one semaphore along any run of the system are a semaphore run |
| `KernelRuns.Accounting` | src/uthread.c:939-972 | semaphore accounting and order of grants in the whole system |
| `KernelTime.SleepPartition` | src/uthread.c:432-455 | `check_sleep_list` is a stable partition: expired threads are appended to the ready queue in list order, the others keep their order, and nobody overdue stays |
| `KernelTime.RemovingDue` | src/uthread.c:438-451 | taking the expired sleepers out one by one leaves exactly the unexpired ones, in order |
| `KernelTime.NoEarlyWakeup` | src/uthread.c:1012-1026 | in any run no thread returns from `uthread_sleep(ms)` before ms * 1000000 ns have passed since its call |
| `KernelEffects.NoLateWakeup` | src/uthread.c:432-455 | in any run a thread that still sleeps after an operation has a wake-up time, ms * 1000000 ns after its call, that the clock has not reached |
| `KernelEffects.PassEffects` | src/uthread.c:416-455 | one polling pass makes ready first the reported threads in the order of the reports, then the expired sleepers in list order, and records each |
| `KernelEffects.EntersScheduler` | src/uthread.c:764-874 | the whole effect of an operation that enters the scheduler on ready queue, sleep list, trace and clock: the caller's event; reported, expired and yielding threads join in this order, a sleeping caller goes to the head of the sleep list; then one thread is dispatched if any is ready, the first one under round robin |
| `KernelEffects.StaysOutside` | src/uthread.c:708-972 | the effect of every other operation on the same: a woken or new thread joins and is recorded, or nothing happens |
| `KernelEffects.TagsOfApply` | src/uthread.c:708-1026 | no operation changes a thread's priority or creation number, and only its own sleep call its wake-up time |
| `KernelEffects.CreateTags` | src/uthread.c:720-725 | a new thread has the priority asked for and a creation number above all others |
| `KernelEffects.CreateCounts` | src/uthread.c:714-733 | a failed creation makes no thread; a creation number is used up unless the control block itself could not be had |
| `KernelEffects.RankStays` | src/uthread.c:720-725 | over a whole run a thread's priority and creation number stay what they are |
| `KernelEffects.Collects` | src/uthread.c:357-368 | after every creation, yield and blocking call no finished thread is left on the global list |
| `KernelTrace.StepTracked` | src/uthread.c:764-1049 | every operation extends the recording so that it still mirrors who has been on the CPU |
| `KernelTrace.Alternation` | src/uthread.c:182-193 | begin and end events alternate strictly, one thread at a time, starting with the end of the stay of the thread that ran when tracing was enabled |
| `KernelTrace.Fidelity` | tools/gantt_viewer.html:719-757 | for any run and non-decreasing timestamps the viewer's duration bars are exactly the stays on the CPU that began while tracing, in order; these, with the one under way, are exactly the dispatches since then; and the markers are exactly the instant events |
| `KernelTrace.TruncatedFidelity` | src/uthread.c:152-156 | when the buffer was full earlier, the bars shown are a prefix of those stays |
| `KernelLimits.HaltExactly` | src/uthread.c:784-867 | an operation ends the process if and only if the caller stops running, nobody is ready, reported or due, and either there is no epoll descriptor or this is the last thread's exit |
| `KernelLimits.EndsAsleep` | src/uthread.c:792-815 | a run without epoll descriptor in which the process ends while its only thread sleeps |
| `KernelLimits.RepicksExactly` | src/uthread.c:389-405 | under the priority policy a yielding thread is dispatched again at once if and only if it precedes every contender |
| `KernelLimits.Starvation` | src/uthread.c:394-399 | while the thread that precedes all others only yields or is preempted, it is dispatched every time and every ready thread stays in the queue |
| `KernelLimits.StarvingStart` | docs/design.md:17 | such a run starts with two threads of equal priority |
| `KernelLimits.UnreportedWaits` | src/uthread.c:1034-1045 | a thread in `uthread_read` or `uthread_write` that no report names, for instance because its registration was refused, stays IO_BLOCKED for ever, whatever else happens |
| `GanttViewer.SortSorts` | tools/gantt_viewer.html:702-703 | the sort orders by time and keeps, for each timestamp, the same events in the same order |
| `GanttViewer.SortedStays` | tools/gantt_viewer.html:702-703 | a recording in time order is displayed in recording order |
| `GanttViewer.OpenMeans` | tools/gantt_viewer.html:722-729 | a span is open for a thread if and only if its latest begin or end event is a begin, and it starts there |
| `GanttViewer.BarsMean` | tools/gantt_viewer.html:727-756 | for any recording an end event adds a bar if and only if the thread's previous begin or end event is a begin, from there to here; an instant event adds a marker; nothing else adds anything |
| `GanttViewer.BarsAre` | tools/gantt_viewer.html:730-743 | over a whole recording the bars are exactly those that end events close, in the order of these |
| `GanttViewer.MarkersAre` | tools/gantt_viewer.html:744-756 | over a whole recording the markers are exactly the instant events, in order |
| `GanttViewer.ProcessTrace` | tools/gantt_viewer.html:695-757 | the loop over `openSpans` and `threadSpans` computes the pairing the lemmas are about |
| `Peterson.MutualExclusion` | demos/petersons/petersons.c:16-37 | under sequential consistency, with each shared access a step, the two workers are never both in the critical section |
| `Peterson.OvertakenOnce` | demos/petersons/petersons.c:18-32 | past its write of `turn` a worker is overtaken at most once |
| `Peterson.CounterExact` | demos/petersons/petersons.c:39-65 | `counter` is at all times the number of completed iterations, and 2n once both have counted themselves as finished |
| `Peterson.OneReports` | demos/petersons/petersons.c:52-64 | never do both workers find that they are not the last; the process ends exactly at the test of a worker that finds `finished` at 2 |
| `Peterson.ReportMade` | demos/petersons/petersons.c:39-65 | under any schedule that is fair within m steps the process ends within 9 m (12 n + 16) steps, with both finished and `counter` at 2n |
| `Peterson.EntersAfter` | demos/petersons/petersons.c:16-37 | in any interleaving a worker past its write of `turn` enters at the latest with its own second step after the other worker's seventh |
| `Peterson.EntersWithin` | demos/petersons/petersons.c:16-37 | under any schedule in which each worker steps at least once in every m steps, it is inside within 9 m steps |
| `Peterson.Demo.Advance` | demos/petersons/petersons.c:16-65 | one access by one worker, on the program's own variables, is one step of the state machine |
| `Peterson.Demo.constructor` | demos/petersons/petersons.c:11-14 | the program starts in the initial state |
| `Peterson.Demo.AdvanceSection` | demos/petersons/petersons.c:44-63 | the accesses between lock and unlock |
| `TraceBuffer.StepKeeps` | src/uthread.c:150-161 | every shared access of every emitter keeps the recorder's invariant and the order of claims |
| `TraceBuffer.Recording` | src/uthread.c:150-161 | in every interleaving: no store misses the buffer; slot 0, 1, 2, ... belong to the calls that found room, in the order of their beginnings; counter = claims + increments to take back; once full it stays at or above the size; a settled slot holds what its own call was asked to record and the time of its writer's third store |
| `TraceBuffer.DumpExact` | src/uthread.c:1089-1114 | with no emitter at work the dump is exactly what the calls that found room were asked to record, in the order of their beginnings |
| `TraceBuffer.Uninterrupted` | src/uthread.c:150-161 | the steps of a call that nobody interrupts add up to one more record with its time, or to nothing when there is no room |
| `TraceBuffer.Recorder.Emit` | src/uthread.c:150-161 | an uninterrupted call records one more event while there is room and otherwise leaves counter and buffer as they were |
| `Channel.StepKeeps` | src/uthread.c:989-1006 | every step of every sender and receiver keeps the channel invariant |
| `Channel.RunKeeps` | src/uthread.c:978-1006 | so it holds in every state of every run of any number of senders and receivers |
| `Channel.BoundedFifo` | src/uthread.c:978-1006 | at most `capacity` messages are under way; reads are a prefix of writes; tail and head are the counts modulo the capacity; the slots from head on hold the queue |
| `Channel.Refines` | src/uthread.c:989-1006 | every step refines a bounded FIFO queue: a send appends at one step and only when there is room, a receive takes the oldest at one step, all other steps leave the queue alone |
| `Channel.Standstill` | src/uthread.c:989-1006 | when no thread can step, nobody holds the lock, waiting senders mean a full channel and waiting receivers an empty one |
| `Channel.StepRank` | src/uthread.c:989-1006 | every step brings the calls under way closer to their ends |
| `ChannelOnScheduler.NextKeeps` | src/uthread.c:764-1006 | with any other activity in between, each step of a system of threads that use a channel is an operation of the scheduler or none, and a step of the channel protocol or none, and the channel's semaphores and mutex are the scheduler's |
| `ChannelOnScheduler.CallAllowed` | src/uthread.c:913-927 | whoever is running can make the channel step it is at, and whoever unlocks the channel's mutex owns it |
| `ChannelOnScheduler.ChannelRuns` | src/uthread.c:978-1006 | the channel's part of any run of the system is a run of the channel protocol |
| `ChannelOnScheduler.SchedulerRuns` | src/uthread.c:764-1075 | the scheduler's part is a run of the scheduler |
| `ChannelOnScheduler.ScheduledFifo` | src/uthread.c:978-1006 | under any scheduling and preemption the channel is a bounded FIFO queue, and a thread that waits inside a call is BLOCKED on one of the channel's wait objects, and conversely |
| `ChannelOnScheduler.SetUp` | src/uthread.c:978-987 | any running thread may set such a channel up |
| `Channel.StepSends` | src/uthread.c:989-996 | messages are conserved on the way into the buffer |
| `Channel.StepTakes` | src/uthread.c:998-1006 | messages are conserved on the way out of it |
| `Channel.Ring.Store` | src/uthread.c:992-993 | the sender's section on the array appends one message and overwrites no unread slot |
| `Channel.Ring.Take` | src/uthread.c:1001-1002 | the receiver's section on the array returns the oldest unread message |
| `Channel.Ring.constructor` | src/uthread.c:978-987 | an empty ring of the given capacity, at most 64 |
| `Channel.Init` | src/uthread.c:978-987 | an empty channel of the capacity asked for, at most 64, with as many space tokens and no message token |
| `Pipeline.ApplyKeeps` | tests/test_channel.c:10-39 | every event keeps the invariant that ties every message to its place and its value |
| `Pipeline.Stuck` | tests/test_channel.c:10-39 | a state in which nothing can happen is the proper end |
| `Pipeline.Progress` | tests/test_channel.c:10-39 | every event leaves fewer events to come |
| `Pipeline.ExactAndDeadlockFree` | tests/test_channel.c:10-39 | for any item count, capacities and interleaving: stage 3 receives 2, 4, 6, ... in order, no freed cell is touched, no run exceeds 90 n events, and a run stops only with all stages finished, all n results delivered and all cells freed |
| `BoundedBuffer.ApplyKeeps` | tests/test_semaphore.c:40-98 | every step of every producer and consumer keeps the invariant |
| `BoundedBuffer.ConsumedOnce` | tests/test_semaphore.c:46-89 | no item is consumed twice, and only items that were numbered are consumed |
| `BoundedBuffer.Verdict` | tests/test_semaphore.c:17-98 | for any number of producers and consumers a standstill is the proper end if and only if wanted <= producers * quota <= wanted + slots, where wanted is the total, or 0 without consumers |
| `BoundedBuffer.AllConsumed` | tests/test_semaphore.c:70-97 | at the proper end exactly the wanted number of items has been consumed |
| `BoundedBuffer.Progress` | tests/test_semaphore.c:40-98 | every step leaves fewer steps to come |
| `BoundedBuffer.ExactlyOnce` | tests/test_semaphore.c:40-98 | for any sizes, numbers of workers and interleaving: nothing is consumed twice, runs are bounded, and a run that cannot go on has ended properly, with the wanted number of items consumed, if and only if the sizes are balanced |
| `BoundedBuffer.EachItemOnce` | tests/test_semaphore.c:14-98 | when the producers make exactly as many items as are wanted there is no deadlock and each item is consumed exactly once |
| `BoundedBuffer.HalfQuota` | tests/test_semaphore.c:18-19 | with two producers and a quota of half the total each, the end is proper if and only if the total is even |
| `BoundedBuffer.OneItemHangs` | tests/test_semaphore.c:18-19 | a run with a total of 1 in which the consumer waits for ever |
| `WorkStealing.StepKeeps` | src/uthread.c:487-633 | every step of every virtual processor, in every interleaving, keeps the invariant |
| `WorkStealing.RunKeeps` | src/uthread.c:487-633 | so it holds in every state of every run |
| `WorkStealing.OnePlaceEach` | src/uthread.c:487-633 | token conservation: each unfinished thread is in exactly one of the shared queue, a local queue, a chain in transit or one processor's hands; a finished one in none |
| `WorkStealing.StealReturns` | src/uthread.c:557 | in every run from a consistent state the dequeue that ends a completed steal returns a thread, whatever other thieves have done |
| `WorkStealing.StealsHalf` | src/uthread.c:524-555 | in every run from a consistent state a steal moves the first floor(n / 2) of the victim's n threads in order and leaves the rest in order, not empty, until and including the release of its lock; the break at 535 is never taken; counts equal lengths; what the thief appends to its empty queue is that half |
| `WorkStealing.LoopEnds` | src/uthread.c:533-547 | the loop ends with the first half of the victim's queue in the chain and the second half, not empty, in the queue |
| `WorkStealing.AppendsHalf` | src/uthread.c:549-554 | the append makes the thief's queue that first half, and its count the length |
| `WorkStealing.NoLockCycle` | src/uthread.c:487-616 | nobody holds two spinlocks, and the holder of a lock never waits |
| `WorkStealing.WhoWaits` | src/uthread.c:595-616 | a processor without a next step spins on a lock somebody else holds, or joins, or is done |
| `WorkStealing.QuiescenceSound` | src/uthread.c:1165-1175 | processor 0 leaves its loop, and `uthread_mn_run` returns, only when every thread ever created has finished |
| `Shutdown.EndsSoon` | src/uthread.c:595-616 | from a state in which every thread has finished, whatever the processors are doing, no run makes more than a given number of further steps |
| `Shutdown.AllReturn` | src/uthread.c:1165-1175 | no deadlock: when no processor can make a step, `uthread_mn_run` has returned, every other processor has been told to stop and has left its loop, and every thread has finished |
| `Shutdown.ReturnsExactly` | src/uthread.c:1165-1175 | for the program's own runs: it returns only when everything is over and everybody else has left, and from any such state it does return |
| `Shutdown.LeavesWhenTold` | src/uthread.c:596-597 | a processor that has been told to stop leaves at its next test |
| `WorkStealing.CollectsFinished` | src/uthread.c:709-711 | a creation takes exactly the finished threads other than the creator off the list |
| `WorkStealing.OverForGood` | src/uthread.c:607-616 | once everything has finished, no thread changes state or is created any more |
| `WorkStealing.ScanEnds` | src/uthread.c:607-615 | a scan that reaches the end of the list has seen everything finished, although it looks at one thread at a time |
| `WorkStealing.VisitsOnce` | src/uthread.c:514-519 | the round of victims from any start reaches every processor exactly once |
| `Stealing.TriesEveryVictim` | src/uthread.c:511-560 | in a run, a try_steal that has found nothing has held the lock of every other processor exactly once |
| `Stealing.TheftCompletes` | src/uthread.c:511-561 | a run from two threads in one local queue in which a theft completes |
| `Stealing.TameForGood` | src/uthread.c:524-527 | from a state in which every local queue has at most one thread, none while its processor is busy, no theft ever begins |
| `Stealing.NeverSteals` | src/uthread.c:511-605 | so no run of the program steals: no local queue ever has two threads, and no thief comes to the lines after the test at 524 |
| `Stealing.NeverMoves` | src/uthread.c:564-575 | no thread is ever on two processors, at the same or at different times |
| `Stealing.YieldsToItself` | src/uthread.c:564-605 | the next thread that a processor dispatches after a thread has yielded on it is that thread |
| `Stealing.SharedQueueWaits` | src/uthread.c:597-603 | while every processor has a thread that does not finish, nobody leaves the shared queue, and new threads queue up behind |
| `Stealing.SharedFifo` | src/uthread.c:599-603 | the shared queue is served in order: position p is the (p + 1)-st to be taken |
| `Stealing.TakenDispatched` | src/uthread.c:599-624 | whoever takes a thread from it dispatches that one |
| `Stealing.LocalHead` | src/uthread.c:498-509 | a local queue is served from its head |
| `Stealing.SecondNeverRuns` | src/uthread.c:564-605 | for any m, a run of one processor and two threads in which the first yields m times and the second still waits |
| `Chains.ChainUnlink` | src/uthread.c:251-266 | unlinking from the middle leaves the chain of the others in order |
| `Chains.DoubleUnlink` | src/uthread.c:280-289 | unlinking from the doubly linked list keeps the prev/next mirror |
| `Chains.DoublePush` | src/uthread.c:272-278 | so does adding at the front |
| `Wiring.PointersSurvive` | src/uthread.c:357-368 | no pointer of a surviving control block leads to one that is collected |
| `Wiring.SurvivorsAre` | src/uthread.c:357-368 | whom garbage collection leaves on the global list |
| `Runtime.Runtime.constructor` | src/uthread.c:650-706 | `uthread_init` on the heap |
| `Runtime.Runtime.Enqueue` | src/uthread.c:230-239 | appends to the queue; head, tail and count stay exact |
| `Runtime.Runtime.Dequeue` | src/uthread.c:241-249 | takes the first of the queue, or NULL exactly when it is empty |
| `Runtime.Runtime.RemoveFromReadyQueue` | src/uthread.c:251-266 | removes the target wherever it is, nothing else, and corrects head, tail and count |
| `Runtime.Runtime.FindBest` | src/uthread.c:389-402 | the scan returns a control block that none of the queue precedes by (priority, creation order), NULL exactly for the empty queue |
| `Runtime.Runtime.PriorityNext` | src/uthread.c:389-405 | and takes only it out of the queue |
| `Runtime.Runtime.GlobalListAdd` | src/uthread.c:272-278 | adds at the front of the doubly linked list |
| `Runtime.Runtime.GlobalListRemove` | src/uthread.c:280-289 | removes one member in place and keeps the order of the others |
| `Runtime.Runtime.SweepList` | src/uthread.c:357-368 | the collecting loop leaves exactly the survivors, in order |
| `Runtime.Runtime.GcFinishedThreads` | src/uthread.c:357-368 | garbage collection on the heap: FINISHED threads other than the current one are gone and no live pointer leads to them |
| `Runtime.Runtime.CheckIoEvents` | src/uthread.c:416-430 | the reported threads become READY in the order of the reports |
| `Runtime.Runtime.CheckSleepList` | src/uthread.c:432-455 | the in-place loop does what the stable partition says |
| `Runtime.Runtime.ScheduleNext` | src/uthread.c:407-410 | under round robin the first thread leaves the ready queue, under the priority policy the one that none precedes; NULL exactly when it is empty |
| `Runtime.Runtime.HasLive` | src/uthread.c:793-799 | whether some thread on the global list has not finished |
| `Runtime.Runtime.Yield` | src/uthread.c:764-824 | `uthread_yield` by a running thread, and so preemption, refines the operation of the state machine |
| `Runtime.Runtime.Exit` | src/uthread.c:826-874 | `uthread_exit` refines it |
| `Runtime.Runtime.Poll` | src/uthread.c:803-807 | one round of the idle loop refines it |
| `Runtime.Runtime.IdleLoop` | src/uthread.c:801-810 | round after round until a thread is ready, which then runs, or until the rounds given are used up |
| `Runtime.Runtime.MutexLock` | src/uthread.c:894-911 | `uthread_mutex_lock` refines it, blocking or not |
| `Runtime.Runtime.MutexUnlock` | src/uthread.c:913-927 | `uthread_mutex_unlock` refines it |
| `Runtime.Runtime.SemWait` | src/uthread.c:939-956 | `uthread_sem_wait` refines it, blocking or not |
| `Runtime.Runtime.SemPost` | src/uthread.c:958-972 | `uthread_sem_post` refines it |
| `Runtime.Runtime.Sleep` | src/uthread.c:1012-1026 | `uthread_sleep` refines it |
| `Runtime.Runtime.IoBlock` | src/uthread.c:1034-1045 | the blocking part of `uthread_read` (and, alike, of `uthread_write`) refines it |
| `Runtime.Runtime.Create` | src/uthread.c:708-758 | `uthread_create_with_priority` refines it, with both allocation failures |
| `Runtime.Runtime.SetScheduler` | src/uthread.c:880-882 | the built-in policy given is installed |
| `Runtime.Runtime.NewMutex` | src/uthread.c:888-892 | `uthread_mutex_init` |
| `Runtime.Runtime.NewSem` | src/uthread.c:933-937 | `uthread_sem_init` |
| `Runtime.Runtime.VpEnqueue` | src/uthread.c:487-496 | appends to a local queue and stamps the processor's number |
| `Runtime.Runtime.VpDequeue` | src/uthread.c:498-509 | takes the first of a local queue, or NULL exactly when it is empty |
| `Runtime.Runtime.TakeChain` | src/uthread.c:533-544 | the two-pointer loop cuts exactly the first `count` threads off, in order, as a chain of their own, and gives them, and no other thread, the thief's number |
| `Runtime.Runtime.TakeHalf` | src/uthread.c:524-546 | the victim's section: floor(n / 2) threads in order for a queue of n >= 2, nothing for a shorter one; the rest keeps order, tail and count; exactly the taken threads get the thief's number |
| `Runtime.Runtime.AppendChain` | src/uthread.c:549-554 | the thief's section: the chain goes to the end of its queue in order, and no link outside the two changes |
| `Runtime.Runtime.StealFrom` | src/uthread.c:524-557 | the sections together: the first half of the victim's queue follows the thief's own threads, the first of all is returned, the victim keeps the rest, and no link or number of any other thread changes |

## Left out

- SIGALRM inside the idle loops (src/uthread.c:801-810 and 852-861). They unmask the signal while the current thread is BLOCKED, IO_BLOCKED or FINISHED, against docs/design.md:25-26; a nested yield there is not modelled. Preemption is assumed in user code only.
- Runtime.Runtime.IdleLoop: how many rounds pass, and whether one ever finds a thread, is up to the reports it is given.
- Runtime.Runtime.Create: the thread number that `next_thread_id` would give is a parameter that must be fresh; the stack and the saved context have no place in the model.
- Runtime.Runtime.Yield: the branch for a READY caller and an empty ready queue (src/uthread.c:786-791) is only asserted to be dead, in `Runtime.Schedule`; `KernelRuns.YieldDispatches` says the same of runs.
- Runtime.Runtime.GcFinishedThreads: freed control blocks are dropped from the ghost registry after the loop, not one by one; the memory itself is not modelled.
- Runtime.Runtime.Exit: the garbage collection and the dump of the trace just before `exit(0)` (src/uthread.c:863-865) are not modelled; the process is over then.
- Runtime.Runtime.NewSem: does not model a negative initial count.
- WorkStealing is a state machine over values, whose queues are sequences; the pointer work of its sections is in `Runtime.TakeHalf`, `AppendChain`, `VpEnqueue` and `VpDequeue`, each under its lock and together in `StealFrom`; that a heap with all processors refines the state machine is not stated.
- Channel, BoundedBuffer and Pipeline are state machines over values, because their point is interleaving; semaphore and mutex calls are the atomic sections of `WaitObjects`. `ChannelOnScheduler` ties channels to the scheduler; the counters of BoundedBuffer, with a mutex each, and the two channels of Pipeline are not tied to it in the same way.
- Exclusive use of a stack in M:N mode: `mn_yield` puts the thread on a queue at 571 before it saves the context at 574. The model makes the two one step and claims token conservation only.
- Mutexes, semaphores, channels, sleeping and read/write in M:N mode, which touch shared lists without `ready_lock`, and the trace events of M:N mode.
- Freeing memory in M:N mode; the sweep of the list itself is a step of `WorkStealing`.
- Custom scheduler functions.
- Saved contexts, guard pages, signal handlers, `fcntl` and the descriptors themselves; `read` and `write` before and after blocking.
- Weak-memory effects on Peterson's lock, and wrap-around of thread numbers, creation numbers and counters.
- Enabling the trace again while emitters are at work, and the output format of the dump.
- The viewer's statistics and drawing, the benchmarks and the scripts.
