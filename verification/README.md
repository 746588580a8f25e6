# Linuse verification

A Dafny model of the hard parts of the Linuse operating-system tools, with proofs:

- **SUSE**, the thread scheduler (`planificacion/suse/suse_scheduler.c`): any number of programs, threads and semaphores; one
  short-term scheduler thread per program and one long-term scheduler, interleaved.
- **MUSE**, the modified-clock page replacement (`memoria/muse/segments.c`).
- **The wire codec** (`lib/sockets/sockets.c`) with the SUSE client stubs (`lib/hilolay/hilolay_alumnos.c`).
- **SAC**, the file-system server: path resolution, the block bitmap, the disk layout, and the console's command normaliser
  (`fileSystem/sac/sac_servidor`).

`dafny verify dfyconfig.toml` checks the whole project.

## How it is built

**SUSE.** `SuseState` holds the scheduler's global data as values and each critical section as a function on them. A C pointer
to a thread control block is the thread's identity `(socket, tid)`, the key of the `tcbs` map. `SuseSystem` is the state
machine: a `Step` is one critical section or one `move_tcb_to`, so `suse_wait`, a signal, each round of the `wakeup_threads` and
`unjoin_exec` loops, each of the two moves of `change_exec_tcb`, and each of the three actions of the long-term scheduler can be
interleaved with steps of any other program. `Guard` says when the source, with a client that keeps the protocol, takes a step;
`Safe` says that the step is defined: no null thread, no position -1 used to remove from a list, no semaphore wait that could
block under a mutex, no overwritten exec slot, no illegal change of state. `Inv` is the invariant: containers and state fields
(`SuseInvariant.Placed`), counters (`Counted`), semaphores (`SemsOk`), one waker for each blocked thread (`OneWaker`), timing
records against logs (`Timed`), control points (`Phases`). `SuseSafety` proves that `Inv` and `Guard` give `Safe`;
`SusePlacement`, `SuseWakers` and `SusePhases` prove each part inductive; `SuseRuns`, `SuseSemaphores`, `SuseProgress`,
`SuseLoops`, `SuseWakeups`, `SuseOrders` and `SuseJoins` prove what holds over whole runs. `SuseScheduler` is the same file as
it runs, a class whose methods update the lists, counters and records in place, each proved equal to its run of the state
machine; `SuseSteps` spells out what those steps do, and `SuseHalves` what one pass over a wakeup list wakes and keeps.
`SuseLocks` is about mutexes alone: every critical section as the locks it takes and releases, run by any number of threads, and
`SuseShutdown` says exactly what shutdown can deadlock with; `SuseExclusion` says what the mutexes keep apart. The methods of
`SuseScheduler` are calls that no other scheduler thread interrupts. What interleaving leaves of them is proved over any run: of
the loops of `wakeup_threads` and `unjoin_exec` in `SuseLoops`, of successive calls of `wakeup_threads` in `SuseWakeups`, of the
wait, the choice and the two moves of the switch in `SuseProgress`, of a join in `SuseJoins`.

Assumptions of the SUSE model, all in `Guard` and `ConfigOk`: thread numbers are unique in a program and `create(0)` comes
first; wait, signal, join and close arrive while the program has a running thread, and join is never on oneself; semaphore names
are known, with 0 <= init <= max and max >= 1; each critical section reads the clock once, the clock never goes back and stays
below the largest `float`; 0 <= alpha <= 1. A `float` is a `real`. `wakeup_threads` may begin whenever its program is between
operations, which covers every place the source calls it. A signal that must wake a thread waits for the wakeup mutex of that
thread's program. A join on a thread that is neither READY, BLOCKED nor EXIT is not a step: the source retries it. The two
sections of `suse_join` are one step: between them only this program's own scheduler could touch the joined list. `log`, `pc`,
`lt` and `clock` are auxiliary; the source does not store them.

**MUSE.** `MuseClock.FrameTable` has the frame array and the clock pointer; the four inline sweeps are three methods. The bits
are not assumed to be 0 or 1: the answer is -1 exactly when every `modif` is neither.

**Codec.** A stream is the bytes sent and not yet received. Ints are four little-endian bytes in two's complement. A stub sends
exactly four bytes at the pointer of a decimal string, so a thread number of more than three characters loses its NUL; the heap
bytes after a shorter string are a parameter, and the round trip is proved exactly for -99..999. A packet is sent when its
length with code and size fits an `int`, in which the source computes it.

**SAC.** A disk is a function from block number to the node read there (paths), or an array of bytes (bitmap and layout).

## Where the code differs from what is said of it

- `find_node` sets `flag_discarded` once and never clears it, so only the highest-numbered node with the last component's name is
  ever examined: an existing path is not found when a later node has that name, wherever it is (`SacPaths.HiddenByLaterNode`;
  `SacPaths.FoundIffNotHidden` is the exact condition).
- `find_node` reads the table from `node_table_start` but numbers the blocks from 2; its answers are right for every table exactly
  when the table starts at block 2 (`SacPaths.AnswersAreNamedIff`), which is so for disks of 32768 to 65535 blocks only
  (`SacLayout.TableAtTwoIff`).
- `format_disk` divides ints, so its `round` does nothing and the bitmap gets too few blocks unless the quotient is exact
  (`SacLayout.BitmapFitsIff`); a block handed out may then lie on the bitmap (`SacLayout.DiskRunsAgreeIff`), on a disk just
  formatted only from 65536 blocks on (`SacLayout.FormattedRunsAgreeIff`). On the disk the SAC README creates, the node table
  starts on the bitmap (`SacLayout.DocumentedDiskOverlaps`). Bitmap, coverage and table position are right together for 32768
  blocks and no other size (`SacLayout.LayoutAsAssumedIff`). From 65536 blocks on, formatting marks the wrong blocks and the
  root directory's own block is the first to be handed out (`SacLayout.RootHandedOutIff`).
- `setAFrame` answers -1 when it takes a free frame (`MuseClock.FrameTable.SetAFrame`).
- A thread number of four or more characters does not survive the protocol (`Session.TidRoundTripIff`).
- Shutdown breaks the mutex order (`SuseLocks.OrderedIff`). `join_threads` holds the clients' mutex while it waits for the
  short-term schedulers to end. It can deadlock with one of them exactly when one of the sections that thread still runs, the
  current one or a later one, takes the clients or waits for a main thread that has not been admitted
  (`SuseShutdown.JoinDeadlockIff`). A scheduler that has its last request to serve is such a thread exactly when the request is
  a create, an accepted close, a wait that blocks, a signal that wakes, a schedule or a join that moves or wakes a thread, or
  any other after which `wakeup_threads` moves one (`SuseShutdown.JoinDuringRequestIff`).
- `destroy_program` takes the clients before the state lists and the semaphores. It can deadlock with another thread exactly when
  one of the sections that thread still runs is among those of `SuseShutdown.DestroyMeetsIff`. By then every scheduler has been
  joined, so only the metrics thread, which is detached, can still be at work, in `log_metrics(NULL)`
  (`SuseShutdown.MetricsDeadlock`).

## Model

| member | source | states |
|---|---|---|
| SuseRuns.Reachable | planificacion/suse/suse_scheduler.c:3-42 | every state reached from the initial one, for any configuration and any run, satisfies the invariant |
| SuseRuns.ConfiguredDegree | planificacion/suse/suse_scheduler.c:585-601 | in every run from the start the degree never exceeds the configured maximum, the free slots are what is left of it, and alpha is the configured one |
| SuseRuns.RunInv | planificacion/suse/suse_scheduler.c:44-399 | the invariant holds after every run, of any length, of any number of programs |
| SuseRuns.InvKept | planificacion/suse/suse_scheduler.c:44-399 | one step of any kind keeps containers, counters, semaphores, wakers, timing records and control points |
| SuseRuns.NoStepGoesWrong | planificacion/suse/suse_scheduler.c:153-399 | after any run every step the source can take is defined, and extends the run |
| SuseSafety.StepIsSafe | planificacion/suse/suse_scheduler.c:153-399 | in an invariant state no step meets a null thread, removes at -1, blocks under a mutex or leaves the life cycle |
| SuseSafety.Contents | planificacion/suse/suse_scheduler.c:518-583 | a thread is in a list or an exec slot exactly when its state field and its program name that container |
| SusePlacement.PlacedKept | planificacion/suse/suse_scheduler.c:518-601 | every step keeps each thread once in the container its state names, and keeps all counters right |
| SusePlacement.LifeCycle | planificacion/suse/suse_scheduler.c:518-583 | a step changes the state of at most one thread, only NEW-READY, READY-EXEC, EXEC-READY, EXEC-BLOCKED, BLOCKED-READY or EXEC-EXIT |
| SuseRuns.ExitIsFinal | planificacion/suse/suse_scheduler.c:308-334 | a finished thread stays finished in every continuation of every run |
| SuseSafety.UnjoinSafe | planificacion/suse/suse_scheduler.c:326-334 | the threads `unjoin_exec` releases are BLOCKED and of its own program, which is what keeps EXIT final |
| SuseInvariant.MovePlaced | planificacion/suse/suse_scheduler.c:518-583 | `move_tcb_to` keeps all containers, of all programs, in agreement with the state fields |
| SuseInvariant.MoveCounted | planificacion/suse/suse_scheduler.c:518-601 | `move_tcb_to` keeps the degree, the free slots and the wakeup counters; only an admission needs a free slot |
| SuseRuns.BlockedIsOwed | planificacion/suse/suse_scheduler.c:253-399 | after any run the blocked list is the disjoint union of semaphore queues, wakeup lists and joined lists still owed |
| SuseWakers.OneWakerKept | planificacion/suse/suse_scheduler.c:217-399 | every step keeps every blocked thread under exactly one pending waker |
| SuseWakers.BlockWaker | planificacion/suse/suse_scheduler.c:217-233 | a wait that blocks puts the running thread at the end of the semaphore's queue and changes no other queue |
| SuseWakers.JoinWaker | planificacion/suse/suse_scheduler.c:270-306 | a join puts the running thread at the end of those that joined the target and changes no other queue |
| SuseWakers.SignalWaker | planificacion/suse/suse_scheduler.c:235-268 | a signal takes the head of the semaphore's queue to the end of its own program's wakeup list and changes no other queue; every blocked thread keeps one waker |
| SuseWakers.UnjoinWaker | planificacion/suse/suse_scheduler.c:326-334 | releasing one joined thread takes exactly the head of the threads still owed, and changes no other queue |
| SuseJoins.JoinEnters | planificacion/suse/suse_scheduler.c:270-306 | a join on a thread that has not finished leaves the caller BLOCKED, last in the joined list, and owed its wakeup by that thread |
| SuseJoins.JoinedUntilReleased | planificacion/suse/suse_scheduler.c:270-334 | it stays so over any run in which that thread's own close does not release it |
| SuseJoins.ReleaseWakes | planificacion/suse/suse_scheduler.c:326-334 | that release makes it READY |
| SuseRuns.CountersAgree | planificacion/suse/suse_scheduler.c:585-693 | after any run degree = READY + EXEC + BLOCKED threads, degree + free slots = the maximum, 0 <= degree <= the maximum, and every tcb_counter = ready + wakeup list |
| SuseRuns.CheckedSlotStays | planificacion/suse/suse_scheduler.c:44-58 | once `check_multiprog` has passed, the slot is still free and the admission defined after any steps of the programs |
| SuseOrders.AdmissionOrder | planificacion/suse/suse_scheduler.c:44-58 | over any run, the threads waiting at the start and those created since are, in order, those admitted and those still in the new list |
| SuseOrders.AdmittedInOrder | planificacion/suse/suse_scheduler.c:930-960 | in every run from the start the threads are admitted in the order of their creation |
| SuseOrders.ExitOrder | planificacion/suse/suse_scheduler.c:518-583 | over any run the exit list grows by the finished threads, in the order in which they finish |
| SuseOrders.BlockedListStep | planificacion/suse/suse_scheduler.c:518-583 | a thread that blocks goes to the end of the blocked list; one that wakes leaves it, and the order of the rest stands |
| SuseInvariant.MoveLists | planificacion/suse/suse_scheduler.c:518-583 | `move_tcb_to` takes the thread out of the list of its old state and puts it at the end of the list of the new one, and leaves the other lists |
| SuseOrders.LogRecords | planificacion/suse/suse_scheduler.c:414-445 | a thread's log records each change of its state at its instant, and the fresh burst when it is kept running; nothing else |
| SuseProgress.OthersOnlyAdd | planificacion/suse/suse_scheduler.c:235-268 | a step of anyone else leaves a program its running thread and only appends to its ready and wakeup lists |
| SuseProgress.WokenIsReady | planificacion/suse/suse_scheduler.c:207-215 | from the semaphore of `wait_for_threads` on, the program's own `wakeup_threads`, interleaved with any steps of the others, leaves it with a ready thread |
| SuseProgress.NoSecondWait | planificacion/suse/suse_scheduler.c:153-215 | so back at its start `schedule_next_for` finds a ready thread and can choose: it waits at most once, under any interleaving |
| SuseProgress.SwitchArrives | planificacion/suse/suse_scheduler.c:336-345 | the two moves of `change_exec_tcb`, interleaved with any steps of the others, end with the chosen thread running |
| SuseProgress.SwitchGoesOn | planificacion/suse/suse_scheduler.c:336-345 | at any point before that, under any interleaving, the next of the two moves can be made at once, is defined, and brings the switch on |
| SuseProgress.PlayConserved | planificacion/suse/suse_scheduler.c:336-345 | while a program at most chooses and switches, interleaved with any steps of the others, none of its ready and running threads is lost, and those added were admitted meanwhile |
| SuseProgress.ChoiceToReply | planificacion/suse/suse_scheduler.c:165-204 | from the choice to the reply, under any interleaving: once idle again the program runs the thread SJF chose |
| SuseProgress.WaitToReply | planificacion/suse/suse_scheduler.c:153-215 | from the semaphore to the reply, under any interleaving: a ready thread is found, the SJF choice is made, and the thread chosen is the one running at the reply |
| SuseScheduler.Scheduler.ScheduleNextFor | planificacion/suse/suse_scheduler.c:153-205 | uninterrupted, it waits exactly when there is no running thread and tcb_counter is 0; otherwise it replies with the thread left in EXEC, chosen by SJF |
| SuseScheduler.SjfChoice | planificacion/suse/suse_scheduler.c:167-195 | the choice is the first ready thread of least estimate; a running thread is displaced only by a strictly smaller one |
| SuseProgress.ChoiceByHistory | planificacion/suse/suse_scheduler.c:165-201 | after any run the thread chosen is the first ready one whose average over its whole burst history is least, and it displaces the running one only when strictly below the average that includes the current burst |
| SuseScheduler.SwitchConserves | planificacion/suse/suse_scheduler.c:336-345 | an uninterrupted switch conserves the ready and running threads as a multiset |
| SuseState.BestPosIsFirstLeast | planificacion/suse/suse_scheduler.c:180-190 | the scan returns the first strict minimum below the bound, or -1 exactly when there is none |
| SuseScheduler.Scheduler.Scan | planificacion/suse/suse_scheduler.c:167-190 | the loop over the ready list computes that position and its estimate |
| SuseSafety.ScanFailsIff | planificacion/suse/suse_scheduler.c:169-196 | with an empty exec slot the scan finds no thread, and null is dereferenced, exactly when every ready estimate reaches FLT_MAX |
| SuseHalves.LargestFloat | planificacion/suse/suse_scheduler.c:169-169 | the bound the scan starts from is (2^24 - 1) 2^104, the largest number a `float` holds |
| SuseSafety.EstimateBelowClock | planificacion/suse/suse_scheduler.c:401-412 | no stored estimate exceeds the clock, so the scan above cannot fail |
| SuseScheduler.Scheduler.ChangeExecTcb | planificacion/suse/suse_scheduler.c:336-345 | uninterrupted, the displaced thread goes to the end of the ready list and the chosen one runs |
| SuseRuns.EstimateHistory | planificacion/suse/suse_scheduler.c:167-201 | after any run a thread's estimate is the exponential average, from 0, of all its bursts, each folded once and in order; total_exec is their sum |
| SuseProgress.EstimateRange | planificacion/suse/suse_scheduler.c:401-412 | after any run the estimate is between 0 and the largest burst |
| SuseTiming.EstimateIsAverage | planificacion/suse/suse_scheduler.c:401-412 | `get_estimate` of a thread that is not picked is the average of its whole burst history |
| SuseTiming.PickFolds | planificacion/suse/suse_scheduler.c:192-197 | storing the chosen thread's estimate folds its last burst, once |
| SuseTiming.KeepAccounts | planificacion/suse/suse_scheduler.c:192-197 | a kept running thread's estimate absorbs the burst just closed |
| SuseTiming.SwitchAccounts | planificacion/suse/suse_scheduler.c:414-445 | every change of state keeps the timing record in step with the log |
| SuseTiming.AverageBounded | planificacion/suse/suse_scheduler.c:406-412 | an exponential average never leaves [0, largest burst] |
| SuseTiming.AverageIsWeighted | planificacion/suse/suse_scheduler.c:406-412 | in closed form, a burst with k later ones counts alpha (1 - alpha)^k |
| SuseRuns.TimeAccounting | planificacion/suse/suse_scheduler.c:414-489 | after any run ready time is what the thread has spent READY, CPU time what it has spent in EXEC, and with the time in NEW or BLOCKED they add up to its age, frozen at finish |
| SuseTiming.TimeIsConserved | planificacion/suse/suse_scheduler.c:428-484 | the same for one record and its log at any instant |
| SuseTiming.TimesAreSpent | planificacion/suse/suse_scheduler.c:447-484 | the two totals of `get_total_for`, each alone, against the log |
| SusePhases.TimedKept | planificacion/suse/suse_scheduler.c:192-201 | every step keeps every thread's record in agreement with its log |
| SuseSemaphores.SemaphoreBalance | planificacion/suse/suse_scheduler.c:217-268 | in every run valor = first value - waits + signals - signals that found it at the maximum, and threads are woken in the exact order they slept |
| SuseSemaphores.ConfiguredSemaphores | planificacion/suse/suse_scheduler.c:895-912 | in every run from the start the semaphores are the configured ones, with the configured maximum, that equation from the configured initial value, and completed waits <= init + signals |
| SuseSemaphores.CompletedWaitsBounded | planificacion/suse/suse_scheduler.c:217-268 | completed waits <= init + signals, with the exact count; valor <= max; the queue length is max(0, -valor) |
| SuseSemaphores.MutualExclusion | planificacion/suse/suse_scheduler.c:217-268 | with paired use at most as many threads, of all programs, are inside as the first value says |
| SuseSemaphores.ConfiguredExclusion | planificacion/suse/suse_scheduler.c:895-912 | in every run from the start, with paired use, at most the configured initial number are inside; with init 1 at most one |
| SuseSemaphores.WakesIffAsleep | planificacion/suse/suse_scheduler.c:235-251 | a signal by the running thread wakes somebody exactly when somebody sleeps on the semaphore |
| SuseSafety.SignalSafe | planificacion/suse/suse_scheduler.c:261-268 | `wakeup` never meets an empty queue or a thread of an unknown program |
| SuseSafety.EmptyWakeupIff | planificacion/suse/suse_scheduler.c:235-251 | a signal would look for a sleeper in an empty queue exactly on a semaphore of maximum 0 at value 0 |
| SusePhases.SemsKept | planificacion/suse/suse_scheduler.c:217-268 | every step keeps valor <= max and the queue length at max(0, -valor) |
| SuseScheduler.Scheduler.MoveTcbTo | planificacion/suse/suse_scheduler.c:518-583 | the in-place list surgery is `Move` on the whole state |
| SuseScheduler.Scheduler.FindTcbPos | planificacion/suse/suse_scheduler.c:603-612 | the first position of the thread, or -1 exactly when it is not there |
| SuseScheduler.Scheduler.RemoveTcb | planificacion/suse/suse_scheduler.c:603-612 | removing at the position found is removing the thread |
| SuseScheduler.Scheduler.constructor | planificacion/suse/suse_scheduler.c:895-912 | the scheduler starts with the configured semaphores, each at its initial value with nobody asleep |
| SuseScheduler.Scheduler.CreateProgram | planificacion/suse/suse_scheduler.c:962-998 | the connecting step |
| SuseScheduler.Scheduler.CreateThread | planificacion/suse/suse_scheduler.c:930-960 | the creating step: the thread is NEW, at the end of the new list, and counted |
| SuseScheduler.Scheduler.LoadMain | planificacion/suse/suse_scheduler.c:78-92 | the main thread goes to EXEC once it has been admitted |
| SuseScheduler.Scheduler.GetNewTcb | planificacion/suse/suse_scheduler.c:498-505 | the head of the new list is fetched and left there |
| SuseScheduler.Scheduler.CheckMultiprog | planificacion/suse/suse_scheduler.c:597-601 | a slot is taken and given back, which changes nothing |
| SuseScheduler.Scheduler.Admission | planificacion/suse/suse_scheduler.c:53-56 | the fetched thread becomes READY, and a main thread's program is released |
| SuseScheduler.Scheduler.SuseWait | planificacion/suse/suse_scheduler.c:217-259 | the waiting step: by the running thread the value goes down by one; any other is refused |
| SuseScheduler.Scheduler.SuseSignal | planificacion/suse/suse_scheduler.c:235-268 | the signalling step: by the running thread the value goes up by one below the maximum, and stays at it |
| SuseScheduler.Scheduler.NotifyWakeup | planificacion/suse/suse_scheduler.c:371-379 | the woken thread joins the end of its own program's wakeup list and is counted |
| SuseScheduler.Scheduler.SuseJoin | planificacion/suse/suse_scheduler.c:270-306 | one attempt joins, finds the thread finished, or leaves the state alone, exactly by the target's state |
| SuseScheduler.Scheduler.FindJoined | planificacion/suse/suse_scheduler.c:275-303 | the search through ready, exit and blocked lists tells the target's state |
| SuseScheduler.Scheduler.WakeupThreads | planificacion/suse/suse_scheduler.c:381-399 | one call moves the threads at even positions to READY, in order, and keeps the rest in order; its answer says whether there were any; the ready list is this one plus them when no admission comes during the call |
| SuseHalves.HalvesPartition | planificacion/suse/suse_scheduler.c:390-394 | the woken and the kept threads together are the list: nothing lost, nothing doubled |
| SuseHalves.DrainsIff | planificacion/suse/suse_scheduler.c:381-399 | k calls without new arrivals empty the list exactly when it had fewer than 2^k threads |
| SuseLoops.WakeLoopRuns | planificacion/suse/suse_scheduler.c:390-394 | after any rounds of the loop, interleaved with any steps of the others, the odd positions passed and the tail are still listed, in order, and the even positions passed are ready, in order |
| SuseLoops.WakeLoopEnds | planificacion/suse/suse_scheduler.c:381-399 | when the loop ends, under any interleaving, the threads at even positions are READY, in order and behind those that were, and the list holds exactly the others, in order |
| SuseWakeups.WokenIff | planificacion/suse/suse_scheduler.c:381-399 | whatever anyone does meanwhile, after c calls of its program's `wakeup_threads` the thread at position i of the wakeup list has been woken exactly when 2^c does not divide i + 1; if it does, its position is (i + 1) / 2^c - 1 |
| SuseWakeups.ReadyAfterCalls | planificacion/suse/suse_scheduler.c:381-399 | so a program that goes on calling has that thread READY after k calls with i + 1 < 2^k, whatever arrives meanwhile |
| SuseScheduler.Scheduler.UnjoinExec | planificacion/suse/suse_scheduler.c:326-334 | every joined thread becomes READY, in joining order, after the threads already ready, when no admission comes during the call |
| SuseLoops.UnjoinLoopRuns | planificacion/suse/suse_scheduler.c:326-334 | after k rounds, interleaved with any steps of the others, the first k that joined are READY, in joining order, and the rest are still owed |
| SuseLoops.UnjoinLoopEnds | planificacion/suse/suse_scheduler.c:308-334 | when the closing thread finishes, under any interleaving, all that joined it are READY, in joining order, it is EXIT and owes nobody |
| SuseScheduler.Scheduler.SuseClose | planificacion/suse/suse_scheduler.c:308-324 | uninterrupted and up to the printing of metrics, the running thread finishes after releasing its joiners; any other thread is refused |
| SuseLocks.SectionsOrdered | planificacion/suse/suse_scheduler.c:217-762 | every critical section outside shutdown takes its mutexes in strictly increasing rank and ends with none |
| SuseLocks.OrderedIff | planificacion/suse/suse_scheduler.c:217-1073 | the sections that keep that order are exactly those outside shutdown |
| SuseLocks.NoCircularWait | planificacion/suse/suse_scheduler.c:217-762 | in every state reached outside shutdown, by any number of threads, no ring of threads of any length waits each for the next |
| SuseLocks.NoDeadlock | planificacion/suse/suse_scheduler.c:217-762 | in every such state a thread inside a section and not at a closed gate can go on, or the chain of threads it waits for ends in one that can |
| SuseLocks.GateHoldsNothing | planificacion/suse/suse_scheduler.c:78-92 | a thread waiting for its main thread to be loaded holds no mutex |
| SuseExclusion.HeldExactly | planificacion/suse/suse_scheduler.c:217-762 | in every state reached outside shutdown a thread inside a section holds exactly the mutexes its instructions so far leave it |
| SuseExclusion.SectionsExclude | planificacion/suse/suse_scheduler.c:217-762 | two threads are never at once inside sections that work on the state lists, on one semaphore, on one program's wakeup list, or on the metrics |
| SuseExclusion.NotifyExcluded | planificacion/suse/suse_scheduler.c:371-399 | nobody adds to a program's wakeup list while the program goes through it |
| SuseShutdown.DestroyMeetsIff | planificacion/suse/suse_scheduler.c:1034-1073 | with all main threads admitted, `destroy_program` and one other thread can deadlock exactly when a section that thread still runs looks a program up inside the state lists or a semaphore, or moves a thread inside a semaphore |
| SuseShutdown.MetricsDeadlock | planificacion/suse/suse.c:49-64 | the detached metrics thread, in `log_metrics(NULL)`, and `destroy_program` reach a deadlock |
| SuseShutdown.JoinDeadlockIff | planificacion/suse/suse.c:161-178 | `join_threads` can come to wait for a short-term scheduler that can never go on exactly when one of the sections that thread still runs takes the clients, or loads a main thread that has not been admitted |
| SuseShutdown.TakesClientsIff | planificacion/suse/suse_scheduler.c:217-762 | which sections take the clients: those that look a program up or move a thread, and the two of shutdown |
| SuseShutdown.JoinDuringRequestIff | planificacion/suse/suse_scheduler.c:65-150 | with a scheduler that has its last request to serve, that is so exactly when the request is a create, an accepted close, a wait that blocks, a signal that wakes, or a schedule or join that moves or wakes a thread, or when the `wakeup_threads` after it moves one |
| MuseClock.FrameTable.ClockModif | memoria/muse/segments.c:434-515 | it returns the declared victim, -1 exactly when there is none; clears exactly the used bits passed in the second sweep; leaves the pointer after the victim |
| MuseClock.VictimIsLeast | memoria/muse/segments.c:434-515 | on 0/1 bits the victim is the minimum in (used, modif, circular distance), and always exists |
| MuseClock.VictimUnique | memoria/muse/segments.c:434-515 | the declaration leaves one choice |
| MuseClock.FrameTable.IncreaseClockPointer | memoria/muse/segments.c:517-529 | the pointer goes round |
| MuseClock.FrameTable.SearchFreeFrame | memoria/muse/segments.c:65-76 | the least free frame, or -1 exactly when there is none |
| MuseClock.FrameTable.SetAFrame | memoria/muse/segments.c:194-225 | a full table evicts the victim, loads it and answers its number; a free frame is taken and the answer is -1; there is no other answer |
| MuseClock.FrameTable.SetFrames | memoria/muse/segments.c:194-225 | from a full table with all bits set, any number of calls of `setAFrame` answer the frames pointer + k mod n in turn; after a multiple of n calls the table is as it was |
| MuseClock.EvictionStep | memoria/muse/segments.c:194-225 | from a table loaded up to some frame, the next eviction takes the next frame in circular order |
| MuseClock.EvictionIsFifo | memoria/muse/segments.c:194-225 | over any run of evictions from such a table the k-th takes frame pointer + k mod n; every n evictions visit each frame once and restore the table |
| Codec.IntRoundTrip | lib/sockets/sockets.c:30-43 | an int survives its four bytes |
| Codec.IntCanonical | lib/sockets/sockets.c:200-209 | any four bytes are the encoding of the int read from them |
| Codec.IntIsLittleEndian | lib/sockets/sockets.c:30-43 | an int travels lowest byte first, a negative one as its two's complement |
| Codec.ValuesRoundTrip | lib/sockets/sockets.c:94-102 | any list of values is recovered from its length-prefixed encoding |
| Codec.ValuesCanonical | lib/sockets/sockets.c:220-241 | a buffer that is cut into values is their encoding: nothing else parses to them |
| Codec.PacketIsFramed | lib/sockets/sockets.c:104-115 | a packet body followed by anything is read back whole, with what follows intact |
| Codec.Paquete.AgregarAPaquete | lib/sockets/sockets.c:94-102 | exactly the given number of bytes is appended, with its length |
| Codec.Paquete.SerializarPaquete | lib/sockets/sockets.c:30-43 | the block is code, size and stream in that order |
| Codec.Stream.EnviarPaquete | lib/sockets/sockets.c:104-115 | the whole packet goes onto the stream |
| Codec.Stream.RecibirOperacion | lib/sockets/sockets.c:187-198 | four bytes are read as an int; -1 when the peer has closed |
| Codec.Stream.RecibirPaquete | lib/sockets/sockets.c:200-241 | the loop returns the values of the payload and leaves the stream at the next message |
| Session.TidRoundTripIff | lib/hilolay/hilolay_alumnos.c:17-28 | a thread number survives its four-byte cell exactly for -99..999 |
| Session.TidBytes | lib/hilolay/hilolay_alumnos.c:17-28 | the characters of the cell of every short thread number |
| Session.CallBytes | lib/sockets/codigos.h:7-24 | the bytes each stub sends, the operation codes as numbers |
| Session.NameRoundTrip | lib/hilolay/hilolay_alumnos.c:71-83 | a NUL-free semaphore name survives |
| Session.CallRoundTripIff | planificacion/suse/suse_scheduler.c:76-135 | the server reads a call back, with the rest of the stream intact, exactly when its thread number is short enough |
| Session.SessionRoundTripIff | planificacion/suse/suse_scheduler.c:76-135 | a sequence of calls sent back to back is recovered exactly when all its thread numbers are short enough |
| Session.ReplyRoundTripIff | planificacion/suse/suse_scheduler.c:347-362 | the client reads back the thread the scheduler chose, exactly for -99..999 |
| Session.SendTid | lib/hilolay/hilolay_alumnos.c:17-69 | create, join and close put their call's bytes on the stream |
| Session.SendSem | lib/hilolay/hilolay_alumnos.c:71-97 | wait and signal put theirs |
| Session.SuseScheduleNext | lib/hilolay/hilolay_alumnos.c:30-34 | a bare operation code |
| Session.ReceiveOne | planificacion/suse/suse_scheduler.c:76-135 | one round of the switch reads one request, or sees the client gone |
| Session.ScheduleShortTerm | planificacion/suse/suse_scheduler.c:74-135 | the receive loop reads the whole session |
| SacPaths.FindNode | fileSystem/sac/sac_servidor/sac_servidor.c:984-1097 | the loops terminate on every node table, cycles included, and compute `Found` |
| SacPaths.Walk | fileSystem/sac/sac_servidor/sac_servidor.c:1043-1077 | the parent walk from one match succeeds exactly on the levels above it |
| SacPaths.PossibleMatches | fileSystem/sac/sac_servidor/sac_servidor.c:1003-1013 | the first loop collects the table's nodes with the last component's name, in order |
| SacPaths.ResolvesIffChain | fileSystem/sac/sac_servidor/sac_servidor.c:1043-1077 | resolving a path is having a parent chain that spells it and ends at parent 0 at its length |
| SacPaths.FindNodeSound | fileSystem/sac/sac_servidor/sac_servidor.c:984-1097 | an answer is a table node whose parent chain spells the path exactly |
| SacPaths.FindNodeIff | fileSystem/sac/sac_servidor/sac_servidor.c:984-1097 | there is an answer exactly when the highest-numbered node of that name resolves the path |
| SacPaths.FoundIffNotHidden | fileSystem/sac/sac_servidor/sac_servidor.c:1029-1082 | a node that resolves the path is answered exactly when no later table node has its name |
| SacPaths.HiddenByLaterNode | fileSystem/sac/sac_servidor/sac_servidor.c:1025-1082 | a table on which an existing path is not found |
| SacPaths.AnswersAreNamedIff | fileSystem/sac/sac_servidor/sac_servidor.c:998-1013 | answers carry the last component's name, on every disk, exactly when the table starts at block 2 |
| SacBitmap.SetBitAt | fileSystem/sac/sac_servidor/sac_servidor.c:1179-1255 | marking a block changes that bit and no other |
| SacBitmap.ClearBitAt | fileSystem/sac/sac_servidor/sac_servidor.c:1419-1424 | clearing a block changes that bit and no other |
| SacBitmap.LeastFree | fileSystem/sac/sac_servidor/sac_servidor.c:1158-1176 | the least free block of the area, or -1 exactly when the area is full |
| SacBitmap.RunMarks | fileSystem/sac/sac_servidor/sac_servidor.c:423-430 | over any interleaving of find-then-mark on all areas, the marked blocks are those marked before and those handed out |
| SacBitmap.NeverTwice | fileSystem/sac/sac_servidor/sac_servidor.c:577-580 | over any such run no block is handed out twice, nor a marked one, nor one outside its area |
| SacBitmap.FreeAfterRun | fileSystem/sac/sac_servidor/sac_servidor.c:1118-1177 | the free blocks of an area go down by one for each call to it and by none for calls to other areas |
| SacBitmap.FailsIffFull | fileSystem/sac/sac_servidor/sac_servidor.c:1118-1177 | a call fails exactly when the earlier calls to its area were at least its free blocks at the start |
| SacBitmap.AnswerIsLeast | fileSystem/sac/sac_servidor/sac_servidor.c:1158-1171 | each block handed out is the least of its area still free |
| SacLayout.RegionsPartitionIff | fileSystem/sac/sac_servidor/sac_servidor.c:1580-1616 | header, bitmap, node table and data split the disk's blocks exactly when the disk has room for the first three |
| SacLayout.BitmapFitsIff | fileSystem/sac/sac_servidor/sac_servidor.c:1590-1603 | the bitmap's bytes stay in its blocks exactly when they fill them |
| SacLayout.BitmapCoversIff | fileSystem/sac/sac_servidor/sac_servidor.c:1601-1601 | every block has a bit exactly when the number of blocks is a multiple of 8 |
| SacLayout.TableAtTwoIff | fileSystem/sac/sac_servidor/sac_servidor.c:1602-1611 | the node table starts at block 2, where `find_node` counts from, exactly for 32768 to 65535 blocks |
| SacLayout.LayoutAsAssumedIff | fileSystem/sac/sac_servidor/sac_servidor.c:1580-1616 | bitmap fits, covers, and table at block 2: exactly for 32768 blocks |
| SacLayout.DocumentedDiskOverlaps | fileSystem/sac/sac_servidor/README.md:8-8 | on the disk of the instructions the node table starts on the bitmap |
| SacLayout.AreasOkIff | fileSystem/sac/sac_servidor/sac_servidor.c:1601-1616 | the node and data areas are disjoint and inside the bitmap exactly when the bitmap covers the disk |
| SacLayout.AreasSplit | fileSystem/sac/sac_servidor/sac_servidor.c:1140-1153 | every block behind the bitmap's is in exactly one of the two areas, the first 1024 of them in the node table, as many as `find_node` reads, and the others in the data blocks |
| SacLayout.AssumedLayout | fileSystem/sac/sac_servidor/sac_servidor.c:1580-1616 | the bounds of a disk of 32768 blocks, in numbers |
| SacLayout.WritesSpareBitmapIff | fileSystem/sac/sac_servidor/sac_servidor.c:449-455 | writing nodes and data blocks leaves the bitmap alone, whatever is written, exactly when the bitmap stays in its blocks |
| SacLayout.DiskRunsAgreeIff | fileSystem/sac/sac_servidor/sac_servidor.c:423-455 | on the disks with a root of a size the bitmap covers, every run of reserving a block and writing it answers, and leaves the bitmap, as the runs of `SacBitmap`, exactly when the bitmap stays in its blocks |
| SacLayout.FormattedRunsAgreeIff | fileSystem/sac/sac_servidor/sac_servidor.c:1580-1668 | on the disks as formatting leaves them, exactly when the bitmap stays in its blocks or there are fewer than 65536 blocks |
| SacLayout.RootHandedOutIff | fileSystem/sac/sac_servidor/sac_servidor.c:1636-1662 | on the disk as formatting leaves it the root's own block is handed out exactly from 65536 blocks on |
| SacLayout.FirstNodeAfterFormat | fileSystem/sac/sac_servidor/sac_servidor.c:1636-1662 | on the disk as formatting leaves it, with the root node over the bitmap's tail if it does not fit, the first node created gets block 3, or the table's first block if that is later |
| SacLayout.FirstDataAfterFormat | fileSystem/sac/sac_servidor/sac_servidor.c:1118-1177 | the first data block handed out after formatting is the one behind the node table's 1024 blocks |
| SacLayout.FormatLeavesRoot | fileSystem/sac/sac_servidor/sac_servidor.c:1617-1668 | formatting writes the bitmap and the first node and nothing else, and a second start finds a root |
| SacLayout.IsRootIff | fileSystem/sac/sac_servidor/sac_servidor.c:1622-1630 | a node is taken for the root exactly when its name is "root" |
| SacLayout.Disco.StartAndSearch | fileSystem/sac/sac_servidor/sac_servidor.c:1617-1668 | formatting followed by a search of the node table answers exactly that block |
| SacLayout.Disco.FindFreeBlock | fileSystem/sac/sac_servidor/sac_servidor.c:1118-1177 | the search over the bytes read from the disk returns the first free block from `node_table_start` to `node_table_end`, or from `data_blocks_start` to `data_blocks_end`; also when the area goes past the bitmap but a free block comes first |
| SacLayout.Disco.SetBlockAsOccupied | fileSystem/sac/sac_servidor/sac_servidor.c:1179-1255 | one bit of the bitmap is set and no other byte of the disk changes |
| SacLayout.Disco.ReserveBlock | fileSystem/sac/sac_servidor/sac_servidor.c:423-430 | search then mark on the disk is one call of the whole-run model |
| SacLayout.Disco.FormatBitmapNodetable | fileSystem/sac/sac_servidor/sac_servidor.c:1402-1431 | every bit from 2 on is cleared, bits 0 and 1 are kept, and no other byte of the disk changes |
| SacLayout.Disco.SetBounds | fileSystem/sac/sac_servidor/sac_servidor.c:1580-1616 | the globals get the region bounds |
| SacLayout.Disco.FormatDisk | fileSystem/sac/sac_servidor/sac_servidor.c:1580-1668 | a disk with a root is left alone; any other gets a bitmap with blocks 0, 1 and 2 taken and then the root node, and nothing else changes |
| SacParser.Normalise | fileSystem/sac/sac_servidor/parser.c:7-46 | the in-place loop terminates and leaves the normal form of the command in the buffer |
| SacParser.NormalBarsGaps | fileSystem/sac/sac_servidor/parser.c:16-44 | the normal form turns each maximal run of spaces and newlines outside quotes into one bar and touches nothing else |
| SacParser.EveryCommandHasPieces | fileSystem/sac/sac_servidor/parser.c:16-44 | every command is made of such runs, plain characters and quoted texts, so the statement above is about all of them |
| SacParser.FixedIff | fileSystem/sac/sac_servidor/parser.c:16-44 | a command is left alone exactly when it has no space or newline outside quotes |
| SacParser.Idempotent | fileSystem/sac/sac_servidor/parser.c:16-44 | normalising twice is normalising once |

## Left out

- Thread control blocks, programs and semaphores are records in maps keyed by identity: aliasing of C pointers is not modelled.
- Critical sections of SUSE are atomic; the post-then-wait on the multiprogramming semaphore inside one `move_tcb_to` is not split.
- Shutdown of SUSE (`end_suse`, `destroy_*`) is modelled only as the locks it takes and the threads it waits for; a client's disconnection is not modelled.
- Liveness: SJF may starve a thread and threads may join in a cycle; the code prevents neither.
- Semaphore waits in `SuseLocks`: `new_counter`, the multiprogramming semaphore and `tcb_counter` are in the state machine instead.
- `float` rounding and the resolution of the clock.
- The `*_end` fields of `t_burst`, which hold a value only while it is subtracted, and the printing of metrics.
- `swapPage`, `searchPageFromFrame`, segments and heap metadata of MUSE: unfinished or stubs.
- `fillFrame` and `freeFrame` of MUSE: two assignments each.
- Real sockets, pthreads, logging, configuration and allocation failure.
- Malformed packets: a length that points outside its buffer is undefined in the source, so `RecibirPaquete` requires a framed one.
- Session.ReceiveOne: does not say what a packet cut by a disconnection yields, because the source reads indeterminate bytes then.
- SacLayout.Disco.FindFreeBlock: does not say what a search past the last byte of the bitmap answers (a full data area on a disk whose blocks are not a multiple of 8): the source tests memory it never wrote.
- Marking -1 after a failed search: `action_mknod`, `action_mkdir` and `action_write` do not look at the answer; runs in `SacBitmap` and `SacLayout` mark and write only blocks found.
- SacLayout.Disco.FormatDisk: does not cover disks under 32768 blocks, where `fread` writes a whole block into a smaller buffer; neither do `FormatBitmapNodetable` and `StartAndSearch`.
- Disks of 2 GiB and more, whose size the source truncates to an `int`.
- SacPaths.FindNode: does not cover the empty path, where the source indexes its path array at -1, nor a read past the end of the disk, which leaves the previous record in the buffer: in the model reading a block depends on its number alone.
- The contents of the root node beyond its first bytes: the source writes an uninitialised stack record, so the bytes are a parameter.
- The rest of `parse_input`, with `string_split`, and the SAC `action_*` operations.
- The bit array, list and string functions of the commons library are not part of this repository; their documented meaning is used.
