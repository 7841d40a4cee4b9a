# Verified models of three kernel tutorials

This project models, and proves properties of, the concurrent core of three kernel modules:

* `tutorial-04/sync_demo.c`: one background thread bumps five counters in a fixed order, each
  under a different primitive, while any number of `reset` writers zero them and any number of
  `/proc` readers sample them. No lock covers two counters.
* `tutorial-05/irq_demo.c`: interrupt top halves count, store a time and queue one work item;
  the bottom half counts and stores its own time. A timer, a GPIO line, a self-rearming delayed
  work, resets, readers, the unwind ladder of `init` and the order of `exit` are modelled.
* `tutorial-02/simple_char.c`: a 1024-byte device shared by any number of opens.

## How it is built

The concurrent programs are step systems. `SyncModel`, `IrqModel`, `LifecycleModel` and
`CpuLocks` each give a state, the moves a scheduler may make, and `Next`; a move that cannot be
made changes nothing, so every sequence of moves is a run and a statement about all reachable
states is a statement about all interleavings. `counter_values[i]++` is a load and a later
store; every lock is a word without an owner, so mutual exclusion is proved, not assumed. The
number of writers, readers, top halves and CPUs is unbounded; `CpuLocks` also preempts processes
and lets them sleep, so there may be more of them than CPUs. Counters wrap at 32 bits.

The classes `SyncDemo.Demo`, `IrqDemo.Demo`, `Lifecycle.Module`, `SimpleChar.Device` and
`Reports.Device` hold the source's variables and change them in place, one method an atomic
step (or one a call); each is proved equal to the step system or to an abstract file, so the
theorems hold of those variables under any schedule.

`Ledger` is the reference for counters: the history of increments, reset stores and copies as
an atomic-counter machine would make them. `Value` replays it without wrapping, `AtZero` cuts
it at the latest reset store to a counter, `Total` counts increments regardless of resets.

What the kernel supplies is stated as transition rules: `queue_work` on a pending item is a
no-op; the pending bit is cleared before the handler's body runs; one work item never runs
concurrently with itself; `ktime_get` never goes back; `hrtimer_forward_now` moves the expiry
to the first period point after now; `cancel_delayed_work_sync` makes re-queueing fail and
waits for the handler; `hrtimer_cancel` and `free_irq` wait for theirs; `flush_workqueue` waits
until nothing is queued or running. The time, the failures of user copies and what a failed
copy leaves behind are parameters.

## What was found

* The drift of two counters across resets is known exactly: their lag in the loop now, less
  their lag at the latest reset store to the second one, plus the increments of the first one
  between the two latest stores; so it lies within one of that number however resets overlap.
* The rw-semaphore mirror is ahead of the atomic counter only while a reset is under way, or
  once 2^31 increments have been made since the latest `atomic_set`. Both happen: `SyncExamples`
  has the runs. Without resets it is ahead exactly while the atomic counter has turned over to
  its least value and the mirror has not followed. The comment at `tutorial-04/sync_demo.c:39` calls `counter_values[0]` the
  atomic counter and the tutorial's README says that every mechanism's counter is incremented;
  in the code that cell is only ever copied from the atomic counter or zeroed.
* The latency that `/proc/irq_demo` prints can be negative, but only while a bottom half is
  owed; no interrupt is ever left without a bottom half that starts after it.
* The last bottom-half time never goes back. The last interrupt time can, since a top half takes
  it before it takes the lock: a run sets it back if and only if some top half is overtaken,
  between its timestamp and its store, by one with a later time, and then makes its store.
* The values of one `/proc` report of `sync_demo` are in order up to one, in 32-bit subtraction,
  in runs of any length; as printed they are so exactly when the later one has turned over no
  more often than the earlier one.
* Unloading `irq_demo` is safe in every interleaving exactly when `using_gpio` is false, as
  configured: with it, `free_irq` comes after `destroy_workqueue` (`tutorial-05/irq_demo.c:462-466`).
  Every failure path of `irq_demo_init` is safe with and without it, and every teardown that is
  safe can be completed from wherever it has got to. The rule that decides it, `WellOrdered`, is
  exact, and every stopping call is needed: with `hrtimer_cancel` or any other one dropped while
  its source is in use, some interleaving queues work on a destroyed queue or leaves work in it.
* A write to the character device whose user copy fails part-way can change bytes beyond the
  count it reports, but only inside the window it was asked to fill.

## Model

| member | source | states |
|---|---|---|
| SyncInvariants.Exclusive | tutorial-04/sync_demo.c:137-156 | from the lock words alone, two tasks inside sections of one lock are both rw-semaphore readers, and a writer is never inside with a reader |
| SyncInvariants.Undisturbed | tutorial-04/sync_demo.c:137-156 | nobody else is about to store to a cell while the thread is between its load and its store |
| SyncInvariants.StepInv | tutorial-04/sync_demo.c:133-160 | each step of the thread, of a reset or of a reader keeps the whole invariant: exclusion, cells equal to the reference history, lag of at most one, resets in order, mirror not ahead |
| SyncInvariants.RunInv | tutorial-04/sync_demo.c:133-160 | the invariant holds after every interleaving of any number of tasks |
| SyncTheorems.Exclusion | tutorial-04/sync_demo.c:77-96 | at most one exclusive holder of each lock, semaphore count plus holders is one, a writer excludes all readers, nobody is inside two sections |
| SyncTheorems.WordsTellWho | tutorial-04/sync_demo.c:137-156 | each lock word is taken if and only if some task is inside the section of that very counter, the rw-semaphore as writer or as reader |
| SyncTheorems.DeadlockFree | tutorial-04/sync_demo.c:229-243 | every unfinished task can step, or waits for one that can and that holds a conflicting lock |
| SyncTheorems.NoLostUpdate | tutorial-04/sync_demo.c:137-156 | each counter equals the thread's completed increments since that counter's latest reset store modulo 2^32, and the memory is that of an atomic-counter machine |
| SyncTheorems.SampleIsValue | tutorial-04/sync_demo.c:72-96 | whatever resets are under way, a reader's sample number k is counter k's memory, and that is the reference value at that moment cut to 32 bits |
| SyncTheorems.Drift | tutorial-04/sync_demo.c:133-150 | with any overlapping resets, the difference of two counters is exactly lag now minus lag at the latest store to the second plus the increments between the stores, and the cells differ by it modulo 2^32 |
| SyncTheorems.DriftWithoutResets | tutorial-04/sync_demo.c:133-150 | with no reset, an earlier counter of the loop is ahead of a later one by zero or one |
| SyncTheorems.DriftAfterReset | tutorial-04/sync_demo.c:225-239 | once the reset that last zeroed the first counter has zeroed the second, n >= 0 increments fell between those stores and the drift is n-1 to n+1 |
| SyncTheorems.MirrorNeverAhead | tutorial-04/sync_demo.c:152-156 | with fewer than 2^31 increments since the latest atomic_set, however many before it, counter_values[0] above atomic_counter implies a reset between its atomic_set and its store under the write lock |
| SyncExamples.MirrorAheadDuringReset | tutorial-04/sync_demo.c:227-243 | a run in which the mirror is ahead while a reset is under way |
| SyncExamples.MirrorAheadAfterWrap | tutorial-04/sync_demo.c:135-155 | a run in which increment number 2^31 puts the mirror ahead with no reset at all: the bound cannot be raised |
| SyncQuiet.MirrorAheadExactly | tutorial-04/sync_demo.c:135-156 | without resets, in a run of any length, counter_values[0] is above atomic_counter if and only if the latter has turned over to its least value in a round whose mirror store is still to come |
| SyncQuiet.Snapshot | tutorial-04/sync_demo.c:72-96 | without resets, each value a /proc reader samples is at least any value it sampled earlier minus one |
| SyncQuiet.SnapshotAcrossTurns | tutorial-04/sync_demo.c:72-96 | without resets, in a run of any length in which the earlier counter gains fewer than 2^31 while the report is made, the two samples are counts reached meanwhile, the later at least the earlier less one in 32-bit subtraction, and as printed if and only if it has turned over no more often |
| SyncExamples.PrintedOrderFails | tutorial-04/sync_demo.c:72-78 | a run whose reader samples 2^31 - 1 and then -2^31: the printed order needs its condition |
| SyncQuiet.LeavesAtHead | tutorial-04/sync_demo.c:133-160 | the thread ends only from its loop condition, after a stop request, holding no lock |
| SyncQuiet.StopHandshake | tutorial-04/sync_demo.c:343-345 | whenever the stop request arrives, the thread completes exactly the round under way; with no reset all five counters then stay at the number of completed rounds |
| SyncProgress.WorkDecreases | tutorial-04/sync_demo.c:133-162 | once a stop is requested, every step that changes anything is one less to make: no interleaving goes on for ever |
| SyncProgress.EverybodyFinishes | tutorial-04/sync_demo.c:343-345 | from every reachable state with a stop requested, a bounded number of steps ends with the thread, resets and readers finished and every lock free |
| SyncProgress.StopEndsEverything | tutorial-04/sync_demo.c:340-345 | from every reachable state, asked to stop or not, setting the flag is followed by a bounded run that finishes everybody with every lock free, the thread having completed just the round under way; without resets all five counters then equal the rounds |
| SyncDemo.Demo.constructor | tutorial-04/sync_demo.c:256-263 | counters zero, locks free, semaphore at one, thread at its loop condition |
| SyncDemo.Demo.CheckStop | tutorial-04/sync_demo.c:133 | the loop condition: on to another round, or out |
| SyncDemo.Demo.AccessAtomic | tutorial-04/sync_demo.c:135 | the thread's atomic_inc (wrapping), a reset's atomic_set, a reader's atomic_read |
| SyncDemo.Demo.TryLock | tutorial-04/sync_demo.c:137-153 | taking each lock exactly when its word allows it |
| SyncDemo.Demo.Load | tutorial-04/sync_demo.c:77-96 | a reader's sample, the load half of an increment, the thread's read of the atomic for the mirror |
| SyncDemo.Demo.Store | tutorial-04/sync_demo.c:137-156 | the store half of an increment, the mirror's store, a reset's zero; only that cell changes |
| SyncDemo.Demo.Unlock | tutorial-04/sync_demo.c:137-156 | releasing each lock, and where each program goes next |
| SyncDemo.Demo.Schedule | tutorial-04/sync_demo.c:125-164 | under any schedule the variables follow the step system and keep the invariant |
| IrqInvariants.AnsweredRun | tutorial-05/irq_demo.c:154-204 | each step keeps every stored interrupt answered: pending, being served, or served by a bottom half stamped no earlier |
| IrqInvariants.StepInv | tutorial-05/irq_demo.c:154-210 | each step keeps the whole invariant: locks, counters, conservation, order of reset stores, times, answered interrupts, readers' pairs |
| IrqInvariants.RunInv | tutorial-05/irq_demo.c:83-295 | the invariant holds after every interleaving of any number of top halves, resets and readers |
| IrqTheorems.LateInterruptIsOwed | tutorial-05/irq_demo.c:154-204 | last_irq_time above last_bh_time implies a top half before its queue_work, a pending item, or a worker that has not stored its time |
| IrqTheorems.NoLostBottomHalf | tutorial-05/irq_demo.c:188-204 | with no bottom half owed, last_bh_time is at or after the time of every interrupt ever stored |
| IrqTheorems.NegativeLatencyMeansOwed | tutorial-05/irq_demo.c:124-134 | a report prints a negative latency only if a bottom half was owed when it had read both times |
| IrqTheorems.PairIsConsistent | tutorial-05/irq_demo.c:92-95 | the two times a reader has read under stats_lock are the two times of one state |
| IrqTheorems.ReportExactly | tutorial-05/irq_demo.c:119-134 | the report prints the bottom-half time less the interrupt time of the moment of its second load, negative or not, and nothing if and only if one of them is zero |
| IrqTheorems.ReportStays | tutorial-05/irq_demo.c:92-134 | after its loads no step of anybody changes what a report prints |
| IrqExamples.NegativeLatencyHappens | tutorial-05/irq_demo.c:128-134 | a run whose report prints a latency of -1 |
| IrqTheorems.DebtIsOutstanding | tutorial-05/irq_demo.c:162-204 | counted interrupts minus counted bottom halves minus merged queueings is always what is pending, taken and uncounted, or counted and unqueued |
| IrqTheorems.Conservation | tutorial-05/irq_demo.c:162-204 | without resets irq_count equals bottom_half_count plus merged plus outstanding modulo 2^32 |
| IrqTheorems.ConservationAcrossResets | tutorial-05/irq_demo.c:286-290 | with any overlapping resets, the exact balance of the two counters since the latest zeroing of irq_count |
| IrqTheorems.DebtBound | tutorial-05/irq_demo.c:286-290 | once the reset that last zeroed irq_count has zeroed bottom_half_count, the latter is at most irq_count plus what was outstanding at that zeroing; the 32-bit counters too, while irq_count has not wrapped since |
| IrqExamples.BottomHalvesAheadDuringReset | tutorial-05/irq_demo.c:288-289 | a run in which, between the two stores of a reset, bottom_half_count is ahead with nothing outstanding: the condition of DebtBound is needed |
| IrqExamples.IrqTimeGoesBack | tutorial-05/irq_demo.c:193-201 | a run in which a top half that is overtaken between its timestamp and its store sets last_irq_time back |
| IrqTimes.IrqTimeGoesBackExactly | tutorial-05/irq_demo.c:193-201 | a step sets last_irq_time back if and only if it is the store of a top half whose time is before that of another one, whose stored time is the one that stands |
| IrqTimes.RunGoesBackExactly | tutorial-05/irq_demo.c:193-201 | a run of any length sets last_irq_time back at some step if and only if some top half is overtaken between its timestamp and its store and then makes that store |
| IrqTimes.IrqTimeGrows | tutorial-05/irq_demo.c:193-201 | last_irq_time never decreases along a run in which no top half is overtaken |
| IrqTimes.BhTimeNeverGoesBack | tutorial-05/irq_demo.c:159-167 | no step sets last_bh_time back |
| IrqTimes.BhTimeGrows | tutorial-05/irq_demo.c:159-167 | last_bh_time never decreases along any run |
| IrqTheorems.ZeroingState | tutorial-05/irq_demo.c:288-290 | every run passed through the state in which its latest store of zero to a counter was made |
| IrqProgress.WorkDecreases | tutorial-05/irq_demo.c:154-210 | without further interrupts every step that changes anything is one less to make |
| IrqProgress.DeadlockFree | tutorial-05/irq_demo.c:83-210 | unless all contexts are done and nothing is pending, some context can step |
| IrqProgress.BottomHalfComes | tutorial-05/irq_demo.c:188-204 | from every reachable state a bounded number of steps ends with nothing owed, last_bh_time at or after every interrupt's time, so the latency is not negative |
| IrqProgress.InterruptIsServed | tutorial-05/irq_demo.c:188-204 | an interrupt raised in any reachable state is, after a bounded run, done with the time of its arrival, and a bottom half has stored a time no earlier |
| IrqProgress.ResetClears | tutorial-05/irq_demo.c:286-290 | an undisturbed reset leaves the three counters zero and everything else as it was |
| IrqProgress.DelayedRunCounts | tutorial-05/irq_demo.c:174-180 | a run of the delayed work adds one, wrapping, to delayed_work_count and to nothing else |
| IrqDemo.Demo.StartWork | tutorial-05/irq_demo.c:154-159 | a pending item is taken and its pending bit cleared first; otherwise nothing happens |
| IrqDemo.Demo.TakeTime | tutorial-05/irq_demo.c:193 | a handler takes the clock's time as its own |
| IrqDemo.Demo.BumpCounter | tutorial-05/irq_demo.c:196 | each handler increments its own counter (162, 177, 196), wrapping, and no other |
| IrqDemo.Demo.TryStatsLock | tutorial-05/irq_demo.c:199 | stats_lock is taken only when free |
| IrqDemo.Demo.StoreTime | tutorial-05/irq_demo.c:200 | a top half stores last_irq_time, the worker last_bh_time, each its own time |
| IrqDemo.Demo.LoadBhTime | tutorial-05/irq_demo.c:94 | the reader completes its pair, and whether a bottom half is owed at that moment is recorded |
| IrqDemo.Demo.QueueWork | tutorial-05/irq_demo.c:204 | an item that is pending is merged, else it becomes pending |
| IrqDemo.Demo.ZeroCounter | tutorial-05/irq_demo.c:288-290 | a reset zeroes irq_count, then bottom_half_count, then delayed_work_count |
| IrqDemo.Demo.Schedule | tutorial-05/irq_demo.c:83-295 | under any schedule the variables follow the step system and keep the invariant |
| LifecycleTheorems.EnvironmentCovered | tutorial-05/irq_demo.c:174-222 | no step of the timer, the line, the work or the delayed work leaves what the calls made so far allow |
| LifecycleTheorems.WellOrderedIsSafe | tutorial-05/irq_demo.c:297-468 | any well-ordered sequence of calls is safe in every interleaving: nothing is queued without a live queue, the queue is empty when destroyed, no source is left afterwards |
| LifecycleTheorems.FailedInitIsSafe | tutorial-05/irq_demo.c:427-448 | every failure label, with and without GPIO and timer, is safe in every interleaving |
| LifecycleTheorems.ExitWithoutGpioIsSafe | tutorial-05/irq_demo.c:453-462 | loading, living and unloading as configured is safe in every interleaving |
| LifecycleTheorems.ExitWithGpioFaults | tutorial-05/irq_demo.c:462-466 | with the GPIO line in use, a run of the exit order queues work on a destroyed queue |
| LifecycleTheorems.ExitIsSafeExactlyWithoutGpio | tutorial-05/irq_demo.c:453-468 | unloading is safe in every interleaving if and only if the GPIO line is not used |
| LifecycleTheorems.OneToken | tutorial-05/irq_demo.c:174-185 | from its first queueing to its cancellation exactly one of armed, pending, running before the re-queue holds; before and after, none |
| LifecycleTheorems.CancelledForGood | tutorial-05/irq_demo.c:446 | after cancel_delayed_work_sync has returned, the delayed work is never armed, pending or running again |
| LifecycleTheorems.ModuleCancelsForGood | tutorial-05/irq_demo.c:443-448 | so it is on every failure path of init and on unloading without GPIO |
| LifecycleExact.TimerGoesRound | tutorial-05/irq_demo.c:213-222 | the callback queues the work item while it runs, and leaves the timer armed as before |
| LifecycleExact.TimerWithoutQueueFaults | tutorial-05/irq_demo.c:213-222 | an armed timer without a live queue leads to a fault |
| LifecycleExact.ChainGoesRound | tutorial-05/irq_demo.c:174-185 | the delayed work expires, runs, and has queued itself anew when it is over: the state is as before |
| LifecycleExact.PendingWaits | tutorial-05/irq_demo.c:204 | work queued while the handler runs is not lost: it starts when that run has ended |
| LifecycleExact.NothingIsCutShort | tutorial-05/irq_demo.c:443-462 | no call and nobody else ends a callback, a top half, the worker or the delayed handler, when a timer is only started while it is off |
| LifecycleExact.StopsWait | tutorial-05/irq_demo.c:443-462 | a call that stops a source returns only once its handler is out and leaves the source off; a flush returns only when nothing is queued or running |
| LifecycleExact.StoppedForGood | tutorial-05/irq_demo.c:453-468 | once every source is stopped and every call made, nothing ever happens again |
| LifecycleExact.SafeExactlyWhenWellOrdered | tutorial-05/irq_demo.c:297-468 | a sequence of calls that creates and destroys its queue at most once each is safe in every interleaving if and only if it is well ordered |
| LifecycleExact.EveryStopIsNeeded | tutorial-05/irq_demo.c:427-448 | with any of the four stopping calls of the unwind order dropped, loading and unloading are safe in every interleaving if and only if those that remain free the line in use, stop the timer in use, cancel the delayed work, and flush when the line or the timer could have queued |
| LifecycleExact.CallsMatch | tutorial-05/irq_demo.c:297-468 | every failure path and the exit stop exactly what was started, each once: no line is freed that was not requested |
| LifecycleProgress.RemainingDecreases | tutorial-05/irq_demo.c:443-462 | every step that changes anything, other than a source firing anew, is one less to make |
| LifecycleProgress.ScriptEnds | tutorial-05/irq_demo.c:443-462 | from every state a bounded number of such steps makes all calls that are left: hrtimer_cancel, free_irq, the cancellation and the flush never wait for what cannot come |
| LifecycleProgress.TeardownFinishes | tutorial-05/irq_demo.c:297-468 | from every point of every interleaving, a well-ordered sequence of calls that ends by destroying the queue can be completed, leaving no queue, no source and no fault |
| LifecycleProgress.ModuleFinishes | tutorial-05/irq_demo.c:427-462 | so can every failure path of init, and loading and unloading without GPIO |
| Lifecycle.Module.CancelChain | tutorial-05/irq_demo.c:460 | the cancellation disarms the item and blocks its re-queueing first, then returns once the handler is out |
| Lifecycle.Module.StopTimer | tutorial-05/irq_demo.c:457 | hrtimer_cancel returns only when no callback runs, and leaves the timer off |
| Lifecycle.Module.DestroyQueue | tutorial-05/irq_demo.c:462 | destroying the queue with work in it is a fault |
| Lifecycle.Module.StepDelay | tutorial-05/irq_demo.c:174-185 | the delayed work expires, starts, re-queues itself and returns |
| Lifecycle.Module.StepTimer | tutorial-05/irq_demo.c:213-222 | the callback queues work before it restarts the timer |
| Lifecycle.LiveAndDie | tutorial-05/irq_demo.c:297-468 | the variables of a module that makes well-ordered calls show no fault under any schedule |
| CpuLocks.HolderIsUndisturbed | tutorial-05/irq_demo.c:199-201 | whoever holds stats_lock is on top of its CPU with interrupts off and cannot be preempted, is the only holder, and no context of its CPU spins on the lock |
| CpuLocks.FlagRestored | tutorial-05/irq_demo.c:165-167 | outside its critical section a context runs with the interrupt flag it started with, and interrupted or preempted contexts resume with interrupts on |
| CpuLocks.OneReader | tutorial-05/irq_demo.c:89-137 | at most one /proc reader is past its mutex_lock, on whatever CPU it runs or while it is preempted or asleep |
| CpuLocks.MutexComesFirst | tutorial-05/irq_demo.c:89-95 | only a /proc reader in process context waits for proc_mutex, never inside a critical section of its own |
| CpuLocks.SomeoneSteps | tutorial-05/irq_demo.c:83-210 | on any number of CPUs with any number of processes, running, preempted or asleep, while any context is unfinished some context can step after at most two decisions of the scheduler, and after none while stats_lock is held |
| CpuLocks.InterruptComesAndGoes | tutorial-05/irq_demo.c:188-210 | an interrupt on any CPU with interrupts on, idle or not, puts its top half on top of what runs there, with interrupts off inside its critical section, and leaves everything as it was |
| CpuLocks.ContextComesAndGoes | tutorial-05/irq_demo.c:89-139 | a reader takes proc_mutex and then stats_lock, a bottom half stats_lock only, and both leave everything as they found it |
| CpuLocks.ParkAndResume | tutorial-05/irq_demo.c:83-139 | a process or worker outside a critical section can be taken off its CPU and put back unchanged |
| TimerRates.ForwardIsFirstAfter | tutorial-05/irq_demo.c:219 | hrtimer_forward_now gives the first period point after now |
| TimerRates.RateBound | tutorial-05/irq_demo.c:213-222 | if run k starts no earlier than k+1 periods in, at most floor((t - start) / period) runs have started by t |
| TimerRates.DueAtNextPeriod | tutorial-05/irq_demo.c:219 | each callback is due at the first whole number of seconds from the start that lies after the end of the one before |
| TimerRates.NoneLost | tutorial-05/irq_demo.c:219 | callbacks that end before the next one is due lose no period: number k is due at second k + 1 |
| TimerRates.PunctualTimer | tutorial-05/irq_demo.c:213-222 | the bound is met: callbacks that are never late and take less than a second number exactly floor((t - start) / period) by time t |
| TimerRates.RunTimer | tutorial-05/irq_demo.c:213-222 | callback n starts its lateness after its expiry, which is forwarded at the end of each callback; by time t at most floor((t - start) / period) have started |
| TimerRates.RunDelayed | tutorial-05/irq_demo.c:174-185 | run k comes five seconds and its lateness after the end of run k - 1; delayed_work_count is exactly the runs since the latest reset, wrapping, and at most floor((t - start) / 5 s) |
| CharFile.FailureChangesNothing | tutorial-02/simple_char.c:94-133 | a call that returns an error changes neither the bytes nor any position |
| CharFile.PositionsMove | tutorial-02/simple_char.c:76-77 | a position advances by exactly the bytes reported, or to the seek's target; all others stay |
| CharFile.SeekMeaning | tutorial-02/simple_char.c:114-137 | SEEK_SET counts from 0, SEEK_CUR from the position, SEEK_END from 1024; targets outside 0..1024 and other whences are -EINVAL; nothing but that position moves |
| CharFile.RelativeSeeksAdd | tutorial-02/simple_char.c:122-124 | two SEEK_CUR calls in a row are one by the sum |
| CharFile.SeekBack | tutorial-02/simple_char.c:119-124 | asking for the position changes nothing, and seeking back to it undoes any seek |
| CharFile.ReadMeaning | tutorial-02/simple_char.c:60-84 | a read without a fault hands over the bytes at the position, as many as asked for or all up to byte 1024 |
| CharFile.WriteMeaning | tutorial-02/simple_char.c:87-111 | a write without a fault stores the caller's bytes at the position, all or up to byte 1024, and is -ENOSPC exactly when it has none or there is no room |
| CharFile.OpenMeaning | tutorial-02/simple_char.c:45-50 | a new open starts at 0, moves nobody else and reads the whole file |
| CharFile.OpensShareBytes | tutorial-02/simple_char.c:60-111 | what is written through one open is read through any other at the same position |
| CharFile.ByteAfter | tutorial-02/simple_char.c:94-104 | after any call each byte is the caller's where reported written, the failed copy's residue in the rest of the window, unchanged elsewhere |
| CharFile.ResidueHappens | tutorial-02/simple_char.c:94-104 | for every file, data and count short of the window, some write reports just that count and leaves the byte after it changed |
| CharFile.RunsKeep | tutorial-02/simple_char.c:60-137 | over every sequence of calls positions stay in 0..1024 and bytes outside all write windows keep their value |
| CharFile.ReadsJoin | tutorial-02/simple_char.c:67-83 | two reads in a row hand over what one read of the joint length would |
| SimpleChar.Device.CharRead | tutorial-02/simple_char.c:60-84 | read refines the abstract file, short and partial transfers and end of file included |
| SimpleChar.Device.CharWrite | tutorial-02/simple_char.c:87-111 | write in place refines the abstract file; an empty or full-device write returns -ENOSPC |
| SimpleChar.Device.CharLlseek | tutorial-02/simple_char.c:114-137 | lseek in 64-bit wrapping arithmetic accepts exactly the targets that lie in 0..1024 in unbounded arithmetic |
| SimpleChar.WriteAll | tutorial-02/simple_char.c:94-110 | a retrying writer, with any partial copies, terminates having stored exactly min(n, 1024 - p) bytes and changed nothing else |
| SimpleChar.ReadUpTo | tutorial-02/simple_char.c:67-83 | a retrying reader with any chunk sizes and partial copies gets exactly the bytes at its position |
| SimpleChar.RoundTrip | tutorial-02/simple_char.c:60-137 | what was written at p in any pieces is read back from p in any pieces |
| Reports.ParseRender | tutorial-04/sync_demo.c:187-191 | the decimal text of a value has no leading zero and no newline, has a minus sign exactly when negative, and parses back to the value |
| Reports.RenderFits | tutorial-04/sync_demo.c:187-191 | a 32-bit value prints in at most eleven characters |
| Reports.TextFits | tutorial-05/irq_demo.c:245-249 | no report is longer than its bound, whatever the counters |
| Reports.SyncReport | tutorial-04/sync_demo.c:187-191 | the four lines of sync_demo, labels and values in order |
| Reports.IrqReport | tutorial-05/irq_demo.c:245-249 | the three lines of irq_demo, labels and values in order |
| Reports.ReportBounds | tutorial-04/sync_demo.c:187-191 | the bounds are 116 characters for sync_demo and 86 for irq_demo, so the 1024-byte buffer never truncates |
| Reports.TextDetermines | tutorial-04/sync_demo.c:187-191 | two reports are equal only if all their counters are |
| Reports.Device.Print | tutorial-05/irq_demo.c:245-249 | the buffer holds the text and its terminating NUL |
| Reports.Device.DemoRead | tutorial-04/sync_demo.c:179-208 | one read returns the slice of the current text at the offset, short by what the copy missed, and nothing past the end |
| Reports.Device.ReadReport | tutorial-05/irq_demo.c:237-266 | with counters at rest, reads of any positive sizes bring non-empty pieces that join to exactly the text, and then one read that brings nothing |
| Reports.Device.ReadChanging | tutorial-04/sync_demo.c:193-204 | with changing counters, any sizes and any copy shortfalls, each read brings what the text of its moment has from the current offset on, as long as size, text and shortfall allow; the offset moves by just that and never passes the bound |
| Commands.Matches | tutorial-05/irq_demo.c:282 | strncmp against a command word is a prefix test |
| Commands.DemoWrite | tutorial-05/irq_demo.c:268-295 | one write takes at most 15 bytes; it triggers if and only if the channel is irq_demo and the bytes start with "trigger", resets if and only if they start with "reset", never both, whatever the stack held; a failed copy is -EFAULT and does nothing |
| Commands.WriteStream | tutorial-04/sync_demo.c:210-249 | a retrying writer is consumed whole in one call for every 15 bytes; call k triggers or resets exactly as the bytes from 15k on start with the word, and the actions are those of the calls in order |
| Commands.StreamsJoin | tutorial-05/irq_demo.c:272-294 | streams that end on a chunk boundary concatenate, and so do their commands |

## Left out

* `tutorial-01`, `tutorial-03`, Makefiles, shell scripts and test programs: no protocol in them.
* Device, class and proc registration, version conditionals and logging: foreign kernel calls.
* User access to a device before `init` returns or while the module is unloading: module
  reference counting is taken to exclude it, so no `trigger` write runs during teardown.
* `CpuLocks` and `LifecycleModel` scripts are values: interrupt flags and context stacks belong
  to the kernel, and the calls of `init` and `exit` are listed in order rather than made by
  two methods, because each waits for its environment in the middle.
* `msleep` in the thread's loop and `kthread_stop`'s wait: neither changes a variable; the two
  stop flags are one.
* The three counter reads of `irq_proc_show` and the unlocked counter reads of
  `sync_demo_read` and `irq_demo_read`: single loads whose values are parameters of `Reports`.
* Concurrent readers of `sync_demo_read` or `irq_demo_read` racing on the shared static text
  buffer: the report properties are for one reader at a time.
* Positioned I/O that bypasses `char_llseek`: positions are those of open, read, write, seek.
* Weak memory ordering, torn 64-bit stores, real-time kernels, CPU hot-plug: single-word steps
  are sequentially consistent.
- SyncQuiet.Snapshot: stated for fewer than 2^31 increments, because 32-bit samples are no
  longer ordered once they wrap; `SyncQuiet.SnapshotAcrossTurns` covers longer runs.
- SyncTheorems.MirrorNeverAhead: stated for fewer than 2^31 increments since the latest
  atomic_set, because it fails with the next one; when exactly it fails after that is stated for
  runs without resets only.
* Fairness: which lock waiter goes first is arbitrary. Progress means that some step is always
  possible and that, with no new contexts (and, for the thread, a stop requested), steps that
  change anything run out.
