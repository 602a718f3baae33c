# Consequence: the deterministic runtime and its allocators

Consequence makes pthread programs deterministic. A kernel module keeps a
logical clock for every thread; the runtime library performs every
synchronization operation while holding one global token, and the token may only
go to the active thread with the least (clock, thread id). This project models
that machinery, and the allocators the runtime brings along, and proves what they
are for. `dafny verify dfyconfig.toml` checks all of it.

## The parts

**Schedule determinism.** `Determinism` says what a deterministic program is, lets
threads tick and synchronize in any interleaving, and proves that the order of
token acquisitions, and everything the program can observe, is always the same.
`Scheduling` proves the same of the token protocol itself: processes that follow a
program, with all the kernel's decisions, notifications and retries, take the token
in that order.

**The clock group.** `ListArrays` is the array-based list of active threads;
`Clocks` the handlers of the kernel module as functions of the group; `ClockGroups`
the same handlers as a class over arrays and links, each proved equal to its
function; `Handlers` says what each of them does through the least active thread
alone; `Grants` what any run of handlers does to a thread that has been told it is
the lowest.

**The token.** `TokenProtocol` puts the clock group, the token, the activation
counter and the place of every thread in `__getToken` into one state machine.
`Wakeups` shows that no wakeup is lost through any run, and `Progress` that the
threads in `__getToken` always come to the point where one takes the token.
`Scenes` runs small processes step by step, and `Overtakings` uses it for the runs
that break the promise.

**Waiting.** `EntryLists` is the circular intrusive list; `SyncTables` the lock and
condition operations as functions; `WaitQueues` the class that refines them over
the links; `LockProtocol` all runs of lock, unlock, wait, signal and broadcast.
`JoinExit` is the hand-off between a parent's join and its child's exit, statement
by statement. `Barriers` is the parallel commit in a barrier. `ThreadPools` is the
pool of parked threads.

**Clocks and counters.** `FastForward` is the last token value and the jump that
brings the next holder up to it. `Counters` is the reading of a 48-bit counter by
the kernel and by user space.

**Allocators.** `Kingsley` is the size classes; `HeapStack` the stack of layers from
the rounding wrapper down to the shared pages, with the ownership of every block;
`SharedHeaps` the layers as they change their fields. `SegHeaps` is the bitmap
search, `Treaps` and `CartesianHeaps` the treap with parent links and the best-fit
heap on it, and `AOFFHeaps` the address-ordered coalescing heap.

State that the code changes in place is a class whose methods are proved equal to
a function of the old state; concurrency is a state machine whose steps are the
sections other threads cannot see into, and the theorems are about all runs.

## Where the code does not keep its promise

For each of these the project proves the exact condition under which it does, for
all inputs, and that the promise fails otherwise.

* A grant can outlive the state it was made in. `__getToken` compares the activation
  counter it read when it saw its flag with the counter after it has the token. A
  thread whose flag is set but not yet read when another thread is activated below
  it reads the counter after it has moved, and passes; and the self-activation at the
  end of `join` (src/thread_lib/include/determ.h:854-856) never moves the counter.
  `TokenProtocol.Harmless` is the condition on the activation,
  `ExactlyHarmless` and `HarmBreaksPromise` say that it is exact.
  `Overtakings.UnseenGrant` and `JoinUndercuts` give runs from the start of the
  process into both cases, and `OrdersPart` shows that the schedule then depends on
  timing. The comment in `join` explains why the parent must be
  active before the child releases the token, which `JoinExit.ParentBackFirst`
  confirms; it does not mention a third thread that has already been granted.
* The version fields of a barrier are 16 bits wide
  (src/thread_lib/include/determ.h:311-312) while versions are not. Commits follow
  the arrival order in every interleaving if and only if at most one participant is
  dirty or the last version waited for is below 65536 (`Barriers.HeapOrderExact`).
  Nobody waits for ever in either case.
* The last token value can go down: `barrier_wait` takes the token without fast
  forwarding, and the fast forward goes through a 32-bit parameter
  (`FastForward.GuardExact`).
* The kernel's signed shift loses a turn of the counter when 2^47 events or more
  fall between two readings, the unsigned one in user space only from 2^48 on
  (`Counters.KernelConserves`, `Counters.UserConserves`).
* Ending a coarsened transaction changes what the clock reads when 2^31 ticks or
  more were coarsened (`Counters.TaskClock.EndCoarsenedTx`).
* The thread pool has no entry left when 255 threads are in use, and its caller does
  not check (`ThreadPools.ThreadPool.GetThread`).

## Readings of the code that the model takes

* `__search_for_lowest_waiting` reads an array it never clears
  (src/logical_clock/module/search_entries.h:137) and sizes it for 128 threads: it is
  taken as cleared and large enough.
* Deciding who is lowest and waking that thread is one step, although the wakeup
  reads `lowest_tid` after the group lock is dropped
  (src/logical_clock/module/clock_main.c:89-98).
* The overflow handler queues the group's one deferred notification, unless it is
  queued already, on the processor of the thread it interrupts
  (src/logical_clock/module/clock_main.c:163-175), and that processor runs it some
  time before the thread next takes the token. A decision on another processor can
  take the flags down in between (src/logical_clock/module/clock_main.c:86-126);
  `Wakeups.NeverSilent` shows that the notification even then never passes over a
  lowest thread that sleeps untold.
* `barrier_wait` ends the barrier in the section that it opens by taking the token,
  and does nothing else to the clock in it before
  (src/thread_lib/include/determ.h:1267-1346).
* Seeing the lowest flag and reading the activation counter is one step
  (src/thread_lib/include/determ.h:641-642), as is releasing the token
  (src/thread_lib/include/determ.h:734-735) and activating a thread together with
  moving the counter.
* A lock entry starts with no waiting threads, which `lock_init` leaves to fresh
  memory (src/thread_lib/include/determ.h:962-973).
* Only the participants of a barrier commit while it is in progress, and it is over
  in one step: the activations, the move of the activation counter and the clearing of
  the fields (src/thread_lib/include/determ.h:1324-1346).
* A program, in `Scheduling`, fixes for each operation what it does as a function of
  the shared state, the thread, its clock and its local state, and how many ticks come
  before the next one. An operation may add any number of ticks to its own clock. A
  thread that is created, or woken from a lock, a condition or a join, goes straight
  into `__getToken`, as the code does.
* The clock group starts after thread 0 has joined it. Tick additions are not
  negative.
* `FAST_FORWARD` is on; `SINGLE_THREAD_OPT`, `USE_TX_COARSENING`, `USE_KENDO`,
  `NO_DETERM_SYNC`, `USE_SIMPLE_LOCKS` and `USE_SIMPLE_BARRIER` are off.

## Model

| member | source | states |
|---|---|---|
| `Determinism.SameSchedule` | src/thread_lib/include/determ.h:602-700 | Of any two interleavings of the same program from the same state, the order in which one takes the token is a prefix of the order of the other. |
| `Determinism.SameOutcome` | src/thread_lib/include/determ.h:602-700 | Two interleavings that have completed equally many operations agree on the shared state and on every thread's local state, status and next due time. |
| `Determinism.AlwaysProceeds` | src/thread_lib/include/determ.h:634-692 | While a thread is active and the token is free, ticking alone brings about a state in which the scheduled thread can take the token. |
| `Determinism.GiveExact` | src/thread_lib/include/determ.h:602-755 | An operation leaves the shared state and its thread as the program says, created threads one tick after the point of creation, woken threads active, and everyone else untouched. |
| `Scheduling.SameOrder` | src/thread_lib/include/determ.h:602-755 | Of any two harmless runs of the token protocol from the start of the process in which the threads follow the same program, however kernel decisions, notifications, retries and ticks interleave, one takes the token in the order of the other as far as it goes. |
| `Scheduling.SameOutcome` | src/thread_lib/include/determ.h:602-755 | Two such runs that have completed equally many operations have the same order, the same shared state, the same active threads, and for each of these the same local state and the same clock at which its next operation is due. |
| `Scheduling.RunOnPlan` | src/thread_lib/include/determ.h:634-692 | Along such a run every acquisition is the one the abstract schedule has next, and every release leaves the state the schedule has after that operation. |
| `Scheduling.ActShape` | src/logical_clock/module/clock_main.c:187-246 | Over all actions: a clock moves only by what its thread counts or adds, a created thread starts one tick above its creator, and the active list changes only by halting and activation. |
| `Wakeups.NoLostWakeup` | src/logical_clock/module/clock_main.c:86-130 | From the start of the process on, through any harmless run, whenever all active threads sleep in the kernel the least of them has been told, and a queued notification is never silent. |
| `Wakeups.ActionSound` | src/logical_clock/module/clock_main.c:86-246 | Every harmless action keeps the invariant behind it: what the kernel owes to sleepers, where every mark may stand, and that a queued notification still has something to tell. |
| `Wakeups.NeverSilent` | src/logical_clock/module/clock_main.c:163-175 | Under that invariant the notification that the overflow handler queued does not find both its flags down while the lowest thread sleeps untold. |
| `Wakeups.ActionAttends` | src/logical_clock/module/clock_main.c:188-246 | Every harmless action, unless it is a silent notification, keeps what the kernel owes to sleepers: the recorded lowest thread has been told or a notification is outstanding. |
| `Wakeups.NotifyAttends` | src/logical_clock/module/clock_main.c:108-130 | The deferred notification keeps that if and only if it does not find both its flags down while the lowest thread sleeps untold. |
| `Progress.EveryRunPasses` | src/thread_lib/include/determ.h:634-692 | In every state a harmless run reaches with all active threads in `__getToken`, any run of their own steps has at most 30 steps for each thread and one more before one of them passes the comparison, and until then always another step: no order of the steps can keep all of them from the token. |
| `Progress.SomeoneProceeds` | src/thread_lib/include/determ.h:634-692 | So in every such state some run of their own steps ends with one of them passing the comparison. |
| `TokenProtocol.StartGood` | src/logical_clock/module/clock_main.c:446-477 | The process after thread 0 has joined the clock group satisfies the protocol invariant. |
| `TokenProtocol.ActionKeeps` | src/thread_lib/include/determ.h:602-755 | Every harmless action of any thread, inside or outside `__getToken`, keeps the invariant: whoever can still get through on its grant is the least active thread, and `lowest_tid` would catch a displacement. |
| `TokenProtocol.AcquiresOnlyLeast` | src/thread_lib/include/determ.h:634-692 | From the start of the process, through any harmless run, a thread that leaves `__getToken` with the token is the unique least active thread, and nobody else owns the token. |
| `TokenProtocol.ExactlyHarmless` | src/thread_lib/include/determ.h:813-866 | An enabled action keeps the invariant if and only if it is harmless; the condition looks only at the state before the action: phases, flags, snapshots, the counter, the clocks and `lowest_tid`. |
| `TokenProtocol.HarmBreaksPromise` | src/thread_lib/include/determ.h:634-692 | Wherever an enabled action is not harmless, some continuation ends with the token held by a thread that is not the least. |
| `TokenProtocol.ActStores` | src/thread_lib/include/determ.h:615-755 | The token is taken by the swap alone and let go where the comparison fails or the section ends; the counter moves by one exactly for a broadcast, a barrier, and a signal to a thread below the recorded lowest; the notification is queued exactly where its flag goes up and it is not queued. |
| `TokenProtocol.ActMoves` | src/thread_lib/include/determ.h:615-755 | A thread that is activated spins, or runs after a barrier; the actor moves through `__getToken` place by place; nobody else moves. |
| `TokenProtocol.HolderActivates` | src/thread_lib/include/determ.h:1013-1150 | A signal, a broadcast, a return from a join and the end of a barrier are open to a holder for all threads that are off the list and have a clock. |
| `TokenProtocol.HolderCan` | src/thread_lib/include/determ.h:705-755 | So are a creation in a section that another one follows, a halt, and the end of the section. |
| `TokenProtocol.ThreadCan` | src/thread_lib/include/determ.h:615-700 | A running thread can be interrupted, turn its counter on and begin an operation, a waiting one can ask and sleep, and a thread in the swap either passes or gives the token back. |
| `TokenProtocol.RunDown` | src/logical_clock/lib/determ_clock.c:313-327 | Through any harmless run no `activated_lowest` flag is left up, so each is read for the activation it belongs to. |
| `Overtakings.UnseenGrant` | src/thread_lib/include/determ.h:634-645 | A harmless run from the start of the process leads to a state in which a signal activates a thread below one that has been told and has not looked, and from there to an acquisition by a thread that is not the least. |
| `Overtakings.JoinUndercuts` | src/thread_lib/include/determ.h:854-866 | Another leads to a state in which a parent rejoins below a thread that has seen its grant while its child exits, and from there likewise. |
| `Overtakings.OrdersPart` | src/thread_lib/include/determ.h:634-692 | The same program has a harmless run and another run whose orders of acquisition are not prefixes of each other. |
| `Scenes.CueAgrees` | src/thread_lib/include/determ.h:634-692 | Each action does to every process that looks like a scene what it does to the scene. |
| `Grants.StepKeepsConsistent` | src/logical_clock/module/clock_main.c:188-241 | Every handler keeps: in the active list if and only if initialized and not inactive, no thread listed twice. |
| `Grants.RunKeepsConsistent` | src/logical_clock/module/clock_main.c:108-535 | Every run of handlers keeps the list equal to the initialized threads that are not inactive. |
| `Grants.GrantSound` | src/logical_clock/module/clock_main.c:202-230 | When a decision among several threads, or the deferred notification, tells t it is the lowest, t is the unique least active thread and `lowest_tid` is t or -1. |
| `Grants.LeastStays` | src/logical_clock/module/clock_main.c:188-241 | Being the least survives every handler of any thread except t's own ticks and halt and the return of a thread below it, and says what each step can do to `lowest_tid`. |
| `Grants.GrantStable` | src/logical_clock/module/clock_main.c:108-241 | A grant outlives any run without such a step. |
| `Grants.NoMissedDisplacement` | src/logical_clock/module/clock_main.c:479-501 | From the grant on, through any undisturbed run, an activation that puts a thread below t sets `activated_lowest`, and an activation that puts none below leaves t the least. |
| `Grants.CreationNeverDisplaces` | src/thread_lib/include/thread_pool.h:203-244 | Activating a tid that is not initialized never displaces a granted thread, so the pool may ignore the result. |
| `Grants.ExitForgetsClock` | src/thread_lib/include/determ.h:902-909 | Halt then reset leaves the tid uninitialized and off the list, so a recycled tid starts afresh. |
| `Handlers.DecisionExact` | src/logical_clock/module/clock_main.c:188-241 | After a decision of a thread: the recorded lowest is the least active thread if that one is the caller or waits, else nobody; the caller has the grant exactly if it is that thread, and waits otherwise; another such thread is told, by its poll or its flag, exactly if it is news or a notification was due; the published ticks are the caller's clock; nothing else changes. |
| `Handlers.AddTicksExact` | src/logical_clock/module/clock_main.c:278-291 | The caller's clock is later by the ticks, and then it is a decision. |
| `Handlers.StopExact` | src/logical_clock/module/clock_main.c:546-570 | The caller's clock is later by what the counter saw while it was on, the counter is off, and then it is a decision. |
| `Handlers.DisableExact` | src/logical_clock/module/clock_main.c:245-276 | The same, with a notification due. |
| `Handlers.EnableExact` | src/logical_clock/module/clock_main.c:293-329 | With the counter on it is a decision, after which the caller is neither waiting nor asleep; if it is the recorded lowest a notification is due. |
| `Handlers.WaitExact` | src/logical_clock/module/clock_main.c:504-514 | A decision and nothing else. |
| `Handlers.StoresExact` | src/logical_clock/module/clock_main.c:373-425 | What a thread stores in its own entry alone: waking takes the marks of its wait, a reset frees its id, and starting on an id turns the counter off and keeps the clock a creator gave it, or starts at 0. |
| `Handlers.FreshEntry` | src/logical_clock/module/clock_main.c:373-425 | A thread that starts on an id nobody has activated starts at clock 0. |
| `Handlers.OverflowExact` | src/logical_clock/module/clock_main.c:137-145 | The interrupt adds what the counter saw, and only while it is on. |
| `Handlers.SleepExact` | src/logical_clock/module/clock_main.c:520-535 | A decision after which the caller is asleep exactly if it is not the one elected. |
| `Handlers.HaltExact` | src/logical_clock/module/clock_main.c:427-444 | A decision among the others: the caller is off the list and inactive when they are looked at, and not waiting afterwards. |
| `Handlers.OverflowAsks` | src/logical_clock/module/clock_main.c:148-177 | The overflow handler raises `nmi_new_low` exactly if the interrupted thread counts, the recorded lowest is that thread or nobody, and the least active thread is another one that waits; nothing else changes. |
| `Handlers.NotifyExact` | src/logical_clock/module/clock_main.c:108-130 | The deferred notification records the least active thread if it waits, takes both flags down and tells that thread exactly if one was up; otherwise it does nothing. |
| `Handlers.ActivateExact` | src/logical_clock/module/clock_main.c:446-477 | A thread that puts itself back is at the end of the list without marks, and grants itself the token exactly if it is below the recorded lowest, or nobody is recorded and it is the least. |
| `Handlers.ActivateOtherExact` | src/logical_clock/module/clock_main.c:479-502 | The other thread is at the end of the list without marks, with its own clock or its creator's plus one; the activator's flag goes up exactly if that thread is below the recorded lowest or nobody is recorded. |
| `Clocks.LowestIsLeast` | src/logical_clock/module/search_entries.h:82-102 | The search returns the unique least active thread, or none exactly when the list is empty. |
| `Clocks.TwoSearchesAgree` | src/logical_clock/module/search_entries.h:82-102 | The list walk and the interrupt-time scan of all slots find the same thread in every consistent group. |
| `Clocks.RivalSearchesAgree` | src/logical_clock/module/search_entries.h:58-79 | The search that leaves a thread out finds the same thread both ways. |
| `Clocks.SameClocksKeeps` | src/logical_clock/module/clock_main.c:188-241 | A change that touches neither clocks nor the list keeps consistency and the least thread. |
| `Clocks.ContendTells` | src/logical_clock/module/clock_main.c:202-230 | Whom a decision among several threads tells, and what it records as lowest. |
| `Clocks.DecideFrame` | src/logical_clock/module/clock_main.c:188-241 | What a decision leaves alone: clocks, list, and the flags of threads it does not tell. |
| `ClockGroups.TaskClockGroup.SearchForLowest` | src/logical_clock/module/search_entries.h:82-102 | The loop over the links computes the search function. |
| `ClockGroups.TaskClockGroup.SearchAllElements` | src/logical_clock/module/search_entries.h:82-102 | The loop over all slots computes the scan of every index up to `max_index`. |
| `ClockGroups.TaskClockGroup.SearchForLowestWaiting` | src/logical_clock/module/search_entries.h:136-153 | The marking loop and the search together return the least thread if it waits, else -1. |
| `ClockGroups.TaskClockGroup.SearchRival` | src/logical_clock/module/search_entries.h:58-79 | The loop returns the least waiting thread other than the given one, or -1 exactly when there is none. |
| `ClockGroups.TaskClockGroup.SearchRivalAllElements` | src/logical_clock/module/search_entries.h:58-79 | The same over all slots. |
| `ClockGroups.TaskClockGroup.DetermineLowest` | src/logical_clock/module/clock_main.c:188-241 | The statements on the shared fields compute the decision the run theorems are about, and whom to wake. |
| `ClockGroups.TaskClockGroup.NotifyWaitingThreads` | src/logical_clock/module/clock_main.c:108-130 | The deferred notification on the fields refines its function. |
| `ClockGroups.TaskClockGroup.AddTicks` | src/logical_clock/module/clock_main.c:278-291 | Adds the ticks to the caller's clock, shows them to user space and decides who is lowest; the new fields are exactly those of the function. |
| `ClockGroups.TaskClockGroup.Disable` | src/logical_clock/module/clock_main.c:245-275 | Counts what the counter saw if it was on, turns it off, asks for a notification, decides who is lowest and wakes that thread: the new fields are exactly those of the function, and nothing else changes. |
| `ClockGroups.TaskClockGroup.Enable` | src/logical_clock/module/clock_main.c:293-329 | Turns the counter on, decides who is lowest and clears the caller's flags; the new fields are exactly those of the function. |
| `ClockGroups.TaskClockGroup.Stop` | src/logical_clock/module/clock_main.c:546-570 | Adds the counted ticks, turns the counter off and decides who is lowest; the new fields are exactly those of the function. |
| `ClockGroups.TaskClockGroup.Halt` | src/logical_clock/module/clock_main.c:427-444 | The thread leaves the linked list and is inactive before the decision, and no longer waiting after it; the new fields are exactly those of the function. |
| `ClockGroups.TaskClockGroup.NewLowestClock` | src/logical_clock/module/clock_main.c:59-76 | `__new_lowest` returns what its function says, inside and outside an interrupt. |
| `ClockGroups.TaskClockGroup.Activate` | src/logical_clock/module/clock_main.c:446-477 | The thread is appended to the linked list with its flags cleared, and grants itself when `__new_lowest` names it; the new fields are exactly those of the function. |
| `ClockGroups.TaskClockGroup.ActivateOther` | src/logical_clock/module/clock_main.c:479-501 | The other thread is appended with its flags cleared, a tid that is not initialized gets its creator's clock plus one, and the flag is set exactly when no lowest is recorded or the thread is below it; the new fields are exactly those of the function. |
| `ClockGroups.TaskClockGroup.Wait` | src/logical_clock/module/clock_main.c:504-514 | The decision is taken for the caller and the thread it names is woken; the new fields are exactly those of the function. |
| `ClockGroups.TaskClockGroup.Sleep` | src/logical_clock/module/clock_main.c:520-535 | As waiting, and the caller is marked asleep exactly if it is still waiting; the new fields are exactly those of the function. |
| `ClockGroups.TaskClockGroup.WokeUp` | src/logical_clock/module/clock_main.c:537-541 | Clears the caller's waiting and sleeping marks and touches no other entry. |
| `ClockGroups.TaskClockGroup.Reset` | src/logical_clock/module/clock_main.c:516-518 | Makes the caller's tid uninitialized and touches no other entry. |
| `ClockGroups.TaskClockGroup.OverflowHandler` | src/logical_clock/module/clock_main.c:148-176 | Raises the deferred notification exactly when the counter is on, another waiting thread is the new lowest and none is pending. |
| `ListArrays.ListArray.Insert` | src/logical_clock/module/listarray.h:55-74 | Appends to the duplicate-free sequence the links thread; both directions stay mirrored. |
| `ListArrays.ListArray.Remove` | src/logical_clock/module/listarray.h:76-106 | Deletes exactly that element in all four positions and marks it dead. |
| `ListArrays.ListArray.InList` | src/logical_clock/module/listarray.h:110-113 | A thread is in the sequence if and only if its links are not dead. |
| `ListArrays.AppendLinks` | src/logical_clock/module/listarray.h:55-74 | Linking behind the tail keeps forward and backward links in agreement. |
| `ListArrays.UnlinkLinks` | src/logical_clock/module/listarray.h:76-106 | Unlinking any position leaves the links of the sequence without it. |
| `LockProtocol.StepKeeps` | src/thread_lib/include/determ.h:916-1150 | Every step of lock, unlock, wait, signal and broadcast keeps the queue invariant. |
| `LockProtocol.NoLostWakeup` | src/thread_lib/include/determ.h:982-1045 | In every reachable state a free lock with waiting threads has a thread, popped from its queue and on the active list, that still has to retry it and can move when the token is free. |
| `LockProtocol.QueuesSeparate` | src/thread_lib/include/determ.h:916-960 | A thread is on at most one queue, the wait count is the queue length, and a queued thread is off the active list whenever another thread holds the token. |
| `LockProtocol.NeverStops` | src/logical_clock/module/listarray.h:55-58 | No run reaches the `BUG_ON` of the active list, nor a wait count without a waiting thread. |
| `LockProtocol.OneInTheMiddle` | src/thread_lib/include/determ.h:1063-1091 | Only the token holder is ever part-way through joining or leaving a queue. |
| `LockProtocol.ServedInOrder` | src/thread_lib/include/list.h:82-187 | Over every run, the threads ever queued on an object are those served, in the same order, followed by the queue. |
| `LockProtocol.StepQueue` | src/thread_lib/include/determ.h:1013-1150 | A step takes threads from the front of a queue and adds at the back, nothing else. |
| `LockProtocol.StepWakes` | src/thread_lib/include/determ.h:1013-1150 | Exactly the threads a step serves become ready and active, and they were not active before. |
| `LockProtocol.MutualExclusion` | src/thread_lib/include/determ.h:982-1046 | Over every run an attempt at a lock succeeds if and only if nobody has gone on with that lock without letting go of it since, by an unlock or by a wait on a condition. |
| `LockProtocol.ReturnsWithLock` | src/thread_lib/include/determ.h:1063-1092 | A call of lock, and a wait on a condition, goes on only by winning its lock, with the token and on the active list; until then its thread is still after that lock. |
| `LockProtocol.FirstOnDeck` | src/thread_lib/include/determ.h:1028-1036 | Over every run only the first thread in a lock's queue is ever on deck. |
| `LockProtocol.CanTry` | src/thread_lib/include/determ.h:982-1001 | A thread that wants a lock and has the token can try it, whether it has an entry yet or not, unless it is a condition. |
| `LockProtocol.TokenExact` | src/thread_lib/include/determ.h:916-960 | The token is taken and let go of only by the steps that say so; a call makes its thread want the lock, and a new entry is free and unused. |
| `LockProtocol.HolderCan` | src/thread_lib/include/determ.h:1013-1150 | A thread with the token and in no operation can unlock any lock, wait on any condition, signal, broadcast and let the token go. |
| `LockProtocol.QueuedCan` | src/thread_lib/include/determ.h:916-935 | A thread part-way into a queue can take its next step. |
| `SyncTables.ReleaseExact` | src/thread_lib/include/determ.h:1013-1046 | A release leaves the lock free whether anyone waits or not; the first waiting thread leaves the queue, ready and active, the second is on deck, and no other thread, queue or lock changes. |
| `SyncTables.AcquireExact` | src/thread_lib/include/determ.h:982-1001 | An acquisition succeeds exactly if the lock has no entry or is free, marks it, and touches no queue. |
| `SyncTables.SignalExact` | src/thread_lib/include/determ.h:1094-1121 | A signal makes the first waiting thread ready and active, and does nothing when there is none. |
| `SyncTables.BroadcastEmpties` | src/thread_lib/include/determ.h:1123-1150 | A broadcast empties the queue, readies and activates exactly its threads, and changes nothing else. |
| `WaitQueues.SyncState.LockAcquire` | src/thread_lib/include/determ.h:982-1001 | On the entries and links, refines acquisition with creation on first use. |
| `WaitQueues.SyncState.WaitOnLock` | src/thread_lib/include/determ.h:916-928 | Refines joining the tail of the lock's queue; every other queue is untouched. |
| `WaitQueues.SyncState.LockRelease` | src/thread_lib/include/determ.h:1013-1045 | Refines release: head popped, activated, ready, next told it is on deck. |
| `WaitQueues.SyncState.CondInit` | src/thread_lib/include/determ.h:1049-1059 | A condition starts with no waiters and an empty queue; the other entries and queues stay as they are. |
| `WaitQueues.SyncState.CondWait` | src/thread_lib/include/determ.h:1063-1076 | Refines joining the condition's queue. |
| `WaitQueues.SyncState.CondSignal` | src/thread_lib/include/determ.h:1094-1121 | Refines signal. |
| `WaitQueues.SyncState.CondBroadcast` | src/thread_lib/include/determ.h:1123-1150 | The loop that pops until the head is null refines broadcast. |
| `EntryLists.Links.InsertTail` | src/thread_lib/include/list.h:82-102 | Appends to the ring; every ring that shares no thread with it is as it was. |
| `EntryLists.Links.RemoveHead` | src/thread_lib/include/list.h:178-187 | Takes the head of the ring, or nothing from an empty one; other rings are as they were. |
| `EntryLists.AppendRing` | src/thread_lib/include/list.h:82-102 | Four link writes behind the tail keep the ring closed in both directions. |
| `EntryLists.DropHeadRing` | src/thread_lib/include/list.h:136-157 | Two link writes around the head leave the ring of the rest. |
| `JoinExit.StepKeeps` | src/thread_lib/include/determ.h:802-911 | Every statement of `join` and `deregisterThread`, and every spurious or foreign wakeup, keeps the hand-off invariant. |
| `JoinExit.ParentBackFirst` | src/thread_lib/include/determ.h:880-911 | When a child that told its parent is about to halt, and when it is about to release the token, the parent has seen the exit and is back on the active list. |
| `JoinExit.NoneLeftBehind` | src/thread_lib/include/determ.h:880-911 | A child that halts without telling its parent leaves no parent halted in a join on it. |
| `JoinExit.SpinEnds` | src/thread_lib/include/determ.h:888-898 | While a child spins, it can go on, or its parent has been woken and can step, or whoever holds the mutex can step. |
| `JoinExit.JoinReturns` | src/thread_lib/include/determ.h:802-866 | Over every run, however its thread waited or not, a join returns with the token, ready and on the active list, after its child has exited. |
| `JoinExit.TokenExact` | src/thread_lib/include/determ.h:802-911 | The token changes hands only at the end of a join that waited, where a join is about to wait, in an exit, and where a thread takes or releases it by itself. |
| `JoinExit.CanGoOn` | src/thread_lib/include/determ.h:802-911 | A thread in join or exit can take its next statement unless that one waits for the mutex, the token, its child or its parent, and each of these waits ends with what it waits for. |
| `JoinExit.ExitReturns` | src/thread_lib/include/determ.h:868-911 | A thread that has exited is off the active list, holds neither token nor mutex, and has no step left. |
| `Barriers.HeapOrderExact` | src/thread_lib/include/determ.h:1276-1316 | Every interleaving of given arrivals commits the heap in arrival order if and only if at most one is dirty or the last version waited for is below 65536. |
| `Barriers.GlobalsOrderExact` | src/thread_lib/include/determ.h:1276-1316 | The same for the globals segment. |
| `Barriers.HeapOvertaken` | src/thread_lib/include/determ.h:310-312 | When the versions do not fit, a run in which a later dirty thread commits first. |
| `Barriers.EarliestEnabled` | src/thread_lib/include/xpersist.h:226-231 | In every reachable state, fitting or not, the earliest arrival that is not finished can take its next step. |
| `Barriers.VersionsAddUp` | src/thread_lib/include/determ.h:1276-1316 | When all have finished, each segment has one new version for each dirty thread, and exactly those were committed. |
| `Barriers.RunKeeps` | src/thread_lib/include/determ.h:1276-1316 | Over every run the waits are the base plus earlier dirty arrivals, truncated, and the version is the base plus the dirty commits made. |
| `Barriers.BarrierEntry.BarrierArrive` | src/thread_lib/include/determ.h:1283-1304 | The token-holding section on the 16-bit fields computes the waits the runs use. |
| `FastForward.GuardExact` | src/thread_lib/include/xrun.h:496-509 | The holder releases at or above the last value, whatever it does meanwhile, if and only if it is not behind, or it fast forwards by less than 2^31. |
| `FastForward.SectionExact` | src/thread_lib/include/xrun.h:496-517 | The holder goes on from exactly the larger of its clock and the last value as long as it is behind by less than 2^31, or from its own clock if the section does not fast forward; the last value becomes the clock it releases at, if considered; no other clock moves. |
| `FastForward.WrapsExact` | src/thread_lib/include/xrun.h:496-517 | Farther behind, its clock falls short of the last value by a positive multiple of 2^32. |
| `FastForward.NeverDecreases` | src/thread_lib/include/determ.h:730-735 | Along any run of guarded sections the last token value never goes down. |
| `FastForward.BarrierSlips` | src/thread_lib/include/determ.h:1283-1284 | A barrier's direct `getToken` by a thread that is behind takes the value back. |
| `FastForward.TokenClocks.WaitToken` | src/thread_lib/include/xrun.h:511-533 | Takes the token only when not held, and forwards the caller's clock through the 32-bit parameter. |
| `FastForward.TokenClocks.RunSection` | src/thread_lib/include/xrun.h:511-588 | One section of the runtime, from the ticks before it to the release, changes clock and last value as the section function the run theorem is about. |
| `Counters.DeltaMeans` | src/logical_clock/module/logical_clock_instruction_counting.h:74-104 | Both shifts compute the difference of the true counts modulo 2^48, the kernel's one as a signed value. |
| `Counters.KernelConserves` | src/logical_clock/module/logical_clock_instruction_counting.h:74-104 | The kernel's differences over any history of readings add up to the true total if and only if every gap is below 2^47, and never exceed it. |
| `Counters.UserConserves` | src/logical_clock/lib/determ_clock.c:434-444 | In user space the same with 2^48. |
| `Counters.SidesAgree` | src/logical_clock/lib/determ_clock.c:434-444 | Both sides agree on every history the kernel reads without loss. |
| `Counters.KernelCounter.ReadAndUpdate` | src/logical_clock/module/logical_clock_instruction_counting.h:74-104 | The reading replaces the previous one always and counts only while the counter was on. |
| `Counters.TaskClock.EndCoarsenedTx` | src/logical_clock/lib/determ_clock.c:385-391 | The clock reads the same afterwards if and only if the coarsened count is below 2^31. |
| `Counters.CoarsenedStretch` | src/logical_clock/lib/determ_clock.c:385-444 | A whole coarsened stretch adds exactly what was counted if and only if that is below 2^31. |
| `Kingsley.Size2Class` | src/thread_lib/include/heaplayers/kingsleyheap.h:65-106 | The table and the shifting loop return the least class that fits. |
| `Kingsley.LeastClassUnique` | src/thread_lib/include/heaplayers/kingsleyheap.h:65-106 | There is one such class, and every lower class is too small. |
| `Kingsley.LeastClassBounded` | src/thread_lib/include/heaplayers/kingsleyheap.h:108-108 | A size up to 2^31 has one of the 29 bins. |
| `HeapStack.StepKeeps` | src/thread_lib/include/heaplayers/segheap.h:313-358 | Every request, every free of a live block into any heap and every write of the program inside its own blocks keeps the ownership invariant of all layers. |
| `HeapStack.RunKeeps` | src/thread_lib/include/heaplayers/segheap.h:313-358 | The ownership invariant holds after every run of legal steps. |
| `HeapStack.RunSafe` | src/thread_lib/include/warpheap.h:155-184 | Over every run of any number of heaps sharing the pages, live blocks do not overlap and a freed block is on exactly one list of one heap. |
| `HeapStack.LiveApart` | src/thread_lib/include/heaplayers/zoneheap.h:64-101 | Live blocks do not overlap, lie in the shared pages and are aligned to 8. |
| `HeapStack.LiveOrInOneBin` | src/thread_lib/include/heaplayers/segheap.h:333-358 | Every block cut for a class is live or in exactly one list, the one of its own size; no block is both. |
| `HeapStack.MallocKeeps` | src/thread_lib/include/heaplayers/segheap.h:313-331 | A request returns a block that was not live, at least as large as asked. |
| `HeapStack.FreeKeeps` | src/thread_lib/include/heaplayers/segheap.h:333-358 | Freeing a live block never aborts on its header, whatever heap it is freed into, and removes just that block from the live ones. |
| `HeapStack.PayloadKept` | src/thread_lib/include/heaplayers/util/sllist.h:55-80 | The allocator never changes what the program stored in a block it holds. |
| `HeapStack.WriteKeeps` | src/thread_lib/include/warpheap.h:52-97 | A program that writes only what it asked for harms neither headers nor free lists. |
| `HeapStack.FootprintIsHighWater` | src/thread_lib/include/heaplayers/segheap.h:313-358 | One heap has cut exactly as many blocks of a class as it ever had in use at one time. |
| `HeapStack.MallocSucceeds` | src/thread_lib/include/xheap.h:107-125 | A request succeeds if and only if its heap has a free block of the size on a list, or room in its arena, or as many whole pages are left as a new arena takes. |
| `HeapStack.MallocPlace` | src/thread_lib/include/heaplayers/zoneheap.h:64-101 | It gets the block freed last, else the front of the arena, else the front of a new arena at the first page nobody has had; the rest of the arena stays for later, and no other arena changes. |
| `HeapStack.BlockSizeLeast` | src/thread_lib/include/heaplayers/ansiwrapper.h:26-36 | The block for a request is the least class size from 16 on that is large enough, or the size rounded up to 8 when it has no class. |
| `HeapStack.FreeThenMalloc` | src/thread_lib/include/heaplayers/segheap.h:313-358 | The block freed last into a heap is the one its next request of that size gets, whatever heap it came from. |
| `HeapStack.FreeExact` | src/thread_lib/include/objectheader.h:38-68 | A free aborts exactly if the header is not marked, and otherwise changes one word of memory and the head of one list of that heap. |
| `SharedHeaps.Stack.TakePages` | src/thread_lib/include/xheap.h:87-129 | The page-rounded bump refines its function, failing exactly when the pages run out. |
| `SharedHeaps.Stack.TakeZone` | src/thread_lib/include/heaplayers/zoneheap.h:60-73 | Refines arena allocation. |
| `SharedHeaps.Stack.SlowZone` | src/thread_lib/include/heaplayers/zoneheap.h:75-101 | Refines the switch to a new arena. |
| `SharedHeaps.Stack.TakeBlock` | src/thread_lib/include/warpheap.h:52-76 | Refines the header layer over the zone. |
| `SharedHeaps.Stack.Allocate` | src/thread_lib/include/heaplayers/ansiwrapper.h:26-36 | The whole request path on the fields refines the function the invariant is about. |
| `SharedHeaps.Stack.Release` | src/thread_lib/include/heaplayers/segheap.h:333-358 | The whole free path, with its class loop, likewise. |
| `SegHeaps.SegHeap.Malloc` | src/thread_lib/include/heaplayers/segheap.h:97-153 | Returns the first block of the lowest non-empty bin at or above the class, and goes to the big heap exactly when those bins are all empty; the nested loops end. |
| `SegHeaps.SegHeap.Free` | src/thread_lib/include/heaplayers/segheap.h:155-187 | Puts the block at the front of the largest bin not above its size and marks that bin. |
| `SegHeaps.SegHeap.NextBit` | src/thread_lib/include/heaplayers/segheap.h:126-130 | The inner loop stops at a set bit of a real bin, skipping only empty bins. |
| `SegHeaps.SegHeap.NextBlock` | src/thread_lib/include/heaplayers/segheap.h:114-124 | The block loop skips only empty bins. |
| `SegHeaps.RestEmpty` | src/thread_lib/include/heaplayers/segheap.h:113-113 | A word below the bit has no marked bin from there on, so those bins are empty. |
| `SegHeaps.ClearKeeps` | src/thread_lib/include/heaplayers/segheap.h:135-138 | Clearing the bit of an empty bin is allowed. |
| `SegHeaps.MarkKeeps` | src/thread_lib/include/heaplayers/segheap.h:182-184 | Marking a bin lets it hold anything. |
| `SegHeaps.OrBits` | src/thread_lib/include/heaplayers/segheap.h:235-237 | Or-ing a bit in sets that bit and no other. |
| `SegHeaps.AndNotBits` | src/thread_lib/include/heaplayers/segheap.h:135-136 | And-ing its complement clears that bit and no other. |
| `Treaps.Treap.Insert` | src/thread_lib/include/heaplayers/experimental/treap.h:374-443 | The node enters after all keys up to its own and before all larger ones; order, heap property and links of the rest are kept. |
| `Treaps.Treap.Remove` | src/thread_lib/include/heaplayers/experimental/treap.h:62-117 | Exactly that node leaves the order; search order, heap property and links are kept, and the rotate-down loop ends. |
| `Treaps.Treap.LookupGeq` | src/thread_lib/include/heaplayers/experimental/treap.h:340-368 | Returns a node with the least key that is at least the request, or none exactly when every key is smaller. |
| `Treaps.Treap.RotateRight` | src/thread_lib/include/heaplayers/experimental/treap.h:272-302 | The link writes rotate the represented tree in its context and change no key or priority. |
| `Treaps.Treap.RotateLeft` | src/thread_lib/include/heaplayers/experimental/treap.h:237-267 | The link writes rotate the represented tree to the left in its context and change no key or priority. |
| `Treaps.Treap.MoveUp` | src/thread_lib/include/heaplayers/experimental/treap.h:424-437 | The loop restores the heap property without changing the order. |
| `Treaps.Treap.SinkDown` | src/thread_lib/include/heaplayers/experimental/treap.h:74-91 | The loop brings the node to a leaf, keeping heap order elsewhere and the order of all nodes. |
| `Treaps.BstIffSorted` | src/thread_lib/include/heaplayers/experimental/treap.h:213-232 | The recursive bounds check accepts exactly the trees whose order is sorted. |
| `Treaps.PlugHeap` | src/thread_lib/include/heaplayers/experimental/treap.h:189-209 | A context and a subtree in heap order make a tree the recursive heap check accepts. |
| `CartesianHeaps.CartesianHeap.Malloc` | src/thread_lib/include/heaplayers/experimental/cartesianheap.h:26-39 | Best fit: a free block at least as large as the request rounded up to a node, no larger than any other such block, or the heap below exactly when there is none. |
| `CartesianHeaps.CartesianHeap.Release` | src/thread_lib/include/heaplayers/experimental/cartesianheap.h:41-46 | The freed block joins the free ones with its size. |
| `AOFFHeaps.AOFFHeap.Malloc` | src/thread_lib/include/heaplayers/experimental/aoffheap.h:51-112 | First fit by address with split; free and live blocks stay apart, the list stays ordered and linked. |
| `AOFFHeaps.AOFFHeap.Free` | src/thread_lib/include/heaplayers/experimental/aoffheap.h:114-161 | The block goes to its place and merges with neighbours it touches; a block that is free already is left alone. |
| `AOFFHeaps.FreeKeeps` | src/thread_lib/include/heaplayers/experimental/aoffheap.h:114-150 | After any free the list is strictly ordered, no free block overlaps a live one, no two are adjacent, and the freed bytes lie in one free block. |
| `AOFFHeaps.SplitKeeps` | src/thread_lib/include/heaplayers/experimental/aoffheap.h:80-96 | Cutting a live block from the front of a free one keeps all of that. |
| `AOFFHeaps.GrowKeeps` | src/thread_lib/include/heaplayers/experimental/aoffheap.h:62-76 | So does a block from the heap below. |
| `AOFFHeaps.MergeKeeps` | src/thread_lib/include/heaplayers/experimental/aoffheap.h:188-197 | A merge takes no byte of a live block and closes the gap. |
| `AOFFHeaps.FreeCovers` | src/thread_lib/include/heaplayers/experimental/aoffheap.h:114-150 | After a free the free blocks with their headers cover exactly the bytes they covered before and those of the block with its header. |
| `AOFFHeaps.SplitCovers` | src/thread_lib/include/heaplayers/experimental/aoffheap.h:80-112 | After a split they cover exactly what they covered before, less the live block with its header and the last 16 bytes of the block that was cut. |
| `AOFFHeaps.ReleaseKeeps` | src/thread_lib/include/heaplayers/experimental/aoffheap.h:151-159 | Giving a block back to the heap below keeps all of that. |
| `AOFFHeaps.AOFFHeap.Coalesce` | src/thread_lib/include/heaplayers/experimental/aoffheap.h:188-197 | The link and size writes of a merge, on the list they stand for. |
| `ThreadPools.ThreadPool.GetThread` | src/thread_lib/include/thread_pool.h:203-219 | Gives the entry parked longest, else the next new one, never one in use, and none exactly when all 255 are in use. |
| `ThreadPools.ThreadPool.Park` | src/thread_lib/include/thread_pool.h:157-180 | The entry joins the queue behind all others. |
| `ThreadPools.QueueTake` | src/thread_lib/include/thread_pool.h:205-214 | Taking the tail leaves the links of the rest. |

## Left out

- ioctl, futex, mmap, signals, rdpmc and page tables: only their effect on the state is a step or a parameter.
- The Conversion library: a memory segment is a version number and a dirty flag for each thread; a clean commit makes no version. Its contents are not part of this model.
- Single-active-thread mode, transaction coarsening policy and `tx_estimate.h`: outside the token discipline, or floating-point heuristics. Coarsened counting itself is in `Counters`.
- The adaptive overflow period, the bounded fence and single stepping: tuning and a short countdown. The search they use, `__search_for_lowest_waiting_exclude_current`, is in `ClockGroups`.
- `group_info->lowest_ticks`, debug events, statistics and the event viewer: written but never read by what is modelled.
- The self-grant in `task_clock_entry_activate`: a step of `Clocks` and `TokenProtocol`, not claimed to pick the least thread; that is one of the exact conditions of `TokenProtocol.Harmless`.
- Grants.GrantSound: does not cover the branch for an only active thread, because there the thread is granted without a search and the least thread is itself; `Clocks.AloneFrame` says what that branch changes.
- Clock values, versions as the library keeps them, and sizes: unbounded integers, except where a field or a parameter of the code is narrower and the text above says so. The 16-bit arrival counter of a barrier is not truncated, since the thread pool has 255 entries.
- Overflow of a request near 2^64 in the rounding of `ANSIWrapper::malloc`: requests are natural numbers.
- The own words of an arena: kept beside the memory; the 32 bytes they take are reserved at the start of every arena and never part of a block.
- `realloc`, `calloc` and `getSize`: compositions of what is proved; that a block keeps its contents until it is freed is `HeapStack.PayloadKept`.
- Block contents of the treap nodes and of AOFF blocks: records by address rather than bytes; that free and live blocks do not share bytes is proved for `AOFFHeaps` and assumed of the blocks given to `CartesianHeaps`.
- AOFFHeaps.AOFFHeap.Free: does not model a block that ends exactly at the list head object in memory, because the heap object is taken to lie outside the memory it manages; the padding in the class guards the other side only.
- A second free in AOFFHeap of a block that has been merged into a neighbour: the code does not notice it, and what it then does to the list is not modelled; a second free of a block that still stands by itself is.
- A block smaller than the smallest class given to `SegHeap::free`: the class index of the code would go below zero there, which its own assertion excludes (src/thread_lib/include/heaplayers/segheap.h:172-178).
- Recycled thread entries in join and exit: `JoinExit` has each thread exit once; joining after the entry has been reused is not modelled, nor is a join by a thread other than the parent. There is no creation step: a thread yet to be created is one that has taken no step.
- `cancel`, `thread_kill`, `barrier_destroy` and `cond_destroy`: unsupported or asserted away in the code.
- `CoalesceHeap`, `dlheap.h`, `BitString`, `XallocHeap`, `LooseSlotHeap` and the chunk heaps: not instantiated by the runtime, and partly defective.
- `freeAll`, `clear` and the destructors of the heaps: easy members.
