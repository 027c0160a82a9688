# A model of sylar's fiber runtime

sylar runs fibers on worker threads. A fiber that would block in a system call registers itself in an
event slot and swaps out, while a condition timer races to cancel it; the idle loop of a worker waits for
events and timers and puts what became ready back into a queue. This project models that machinery, and
two smaller cores (log patterns and configuration), and proves what it keeps.

## Structure

| files | content |
|---|---|
| `Common.dfy` | identities, callbacks, queue entries; sums over sequences |
| `TimerSpec.dfy`, `TimerRuns.dfy`, `Timers.dfy` | the timer queue as a value, whole runs of it, and the classes that update it in place |
| `IdleWait.dfy` | how long the idle loop and the hooked sleeps wait |
| `EventSpec.dfy`, `EventSteps.dfy`, `EventRuns.dfy`, `IOManager.dfy` | the event table as a value, its operations step by step, whole runs, and the classes |
| `QueueSpec.dfy`, `Scheduler.dfy` | the run queue as a value; fibers, scheduler and a worker's turn as classes |
| `Fleet.dfy`, `TimerWeights.dfy`, `Tokens.dfy` | fibers and workers of the step system; where wake-ups are held |
| `Runtime.dfy`, `RuntimeShapes.dfy`, `RuntimeSteps.dfy`, `RuntimeFibers.dfy`, `RuntimeRuns.dfy` | the runtime as one step system, what each action does component by component, and the invariant |
| `RuntimeTheorems.dfy`, `RuntimeTimeouts.dfy` | what the invariant says to users |
| `TimeoutTokens.dfy`, `TimeoutRuns.dfy` | where the closure of a condition timer is, over every run; what strands a call |
| `RuntimeTables.dfy`, `RuntimeWitnesses.dfy` | concrete runs on which the code falls short |
| `Counters.dfy` | the thread counters as the plain integers they are |
| `IoProgram.dfy`, `DoIo.dfy`, `Hook.dfy` | the program of a blocking call; `do_io` on the objects; that the step system runs the same program |
| `PatternSpec.dfy`, `LogFormatter.dfy` | log patterns: tokens and printings; the scanner |
| `ConfigSpec.dfy`, `Config.dfy` | configuration trees, variables and listeners; loading |
| `FdFlags.dfy` | the flags of hooked sockets |

Each imperative core has a specification on values and classes whose methods are proved to follow it.
The runtime itself is a step system over the same specifications. Taking an entry, counting it, entering
and leaving a fiber, expiring timers, scheduling what expired, every operation on the event table, and in
`do_io` arming, registering, swapping out, waking, cancelling and reading the flag are steps of their own,
and the theorems hold for all their interleavings.
Clock readings, the kernel's answers, what a fiber does next and which thread moves are inputs.

## Where the code falls short of its intent

Each of these is a theorem below; where the code meets the intent for some inputs, with the condition.

- A hang-up or an error is widened to both directions, and the dispatch loop triggers what was reported
  rather than what was registered; its assertion fails on an over-report (`EventSpec.DispatchKeeps`).
- The read lock is dropped before the context vector is resized; a smaller resize that comes second drops
  a context with its waiter out of the vector, exactly when it does not cover that descriptor
  (`EventRuns.RacingResizeOrphansWaiter`). Only readiness reaches the waiter then: no cancel, hence no
  timeout and no close (`EventRuns.OrphanIsReachedByReadinessOnly`). Elsewhere growth is one step.
- A call can be left waiting with no timeout to come. That happens exactly when it registers after its
  timeout is spent, since the timer is armed before the event is registered, or when the kernel refuses its
  own `cancelEvent` (`TimeoutRuns.BecomesStranded`; a run: `RuntimeWitnesses.CallIsStranded`).
- A closure that has set its call's flag can reach `cancelEvent` after that call has returned; it then wakes
  whoever waits on the descriptor by now (`TimeoutRuns.LeftoverClosure`), who tries again
  (`TimeoutRuns.WokenInVainRetries`).
- The state update after the fiber branch of the run loop is commented out. A fiber that swaps out to wait
  stays EXEC and is never run again exactly when it runs in that branch (`RuntimeTheorems.SecondHoldSticks`,
  `RuntimeTheorems.StuckForever`; a run: `RuntimeWitnesses.SleepingFiberIsStuck`); one that yields READY
  there is not queued again (`Schedulers.Worker.Turn`). The guard of that branch is always true, so that finished fibers are
  not entered rests on the invariant.
- `stopping()` can hold while a worker carries an entry it has not counted or callbacks it has not
  scheduled (`RuntimeTheorems.InFlightUndoesStop`; a run: `RuntimeWitnesses.StopWhileInFlight`). All workers
  can then leave with work in the queue (`RuntimeWitnesses.HastyStopLeavesWork`), as they can when work comes
  from outside after `stop` (`RuntimeWitnesses.LateSubmissionIsLeft`).
- The counters that `stopping()` reads are plain integers, changed outside any lock. A counter is off by
  exactly what stores have overwritten (`Counters.RunDrifts`); one lost increment, and it reads zero while a
  worker is inside (`Counters.LostIncrement`). The step system increments in one step, so
  `RuntimeTheorems.AssertionsHold`, as to the counters, and `StopIsStable`, `StopIsStableOverRuns` and
  `NothingLeftBehind` assume that no increment is lost.
- A clock rollover can leave a recurring timer before the sleeper's deadline without a wake-up
  (`TimerRuns.RolloverMissesWakeUp`).
- The `(int)` cast of the remaining time turns 2^31 ms and more into an unlimited wait
  (`IdleWait.WaitBounded`); `sleep` multiplies in 32 bits and `nanosleep` stores milliseconds in an `int`.
- FIONBIO passes through to the kernel (`FdFlags.FionbioDefeatsTheHook`), a failing F_GETFL loses a bit of
  its -1 (`FdFlags.FdCtx.GetFl`), and `FdCtx::init` takes a socket for non-blocking although the calls that
  make it so may fail (`FdFlags.FdCtx.constructor`).
- The comment above `LogFormatter::init` announces `%%` as an escape; the code never treats it as one
  (`PatternSpec.PercentIsNoEscape`).
- The documented character set of configuration names has a 9, the code's has not
  (`ConfigSpec.NineIsRefused`); `fromString` returns false also on success.
- The two locks of `setValue` leave a gap in which a second update breaks the listeners' view
  (`ConfigSpec.RacingUpdatesBreakTheChain`).

## Model

| member | source | states |
|---|---|---|
| `TimerSpec.FindLocates` | sylar/timer.cpp:5-17 | in a set sorted by (deadline, address), `find` returns the position of every member |
| `TimerSpec.InsertSorted` | sylar/timer.cpp:155-165 | inserting an absent timer keeps the set strictly sorted |
| `TimerSpec.EraseSorted` | sylar/timer.cpp:29-38 | erasing a position keeps it strictly sorted and removes exactly that member |
| `TimerSpec.CancelIntegrity` | sylar/timer.cpp:29-38 | cancel keeps the set equal to the timers with a callback; it succeeds exactly on a timer with a callback, which leaves the set and loses it |
| `TimerSpec.RefreshIntegrity` | sylar/timer.cpp:39-52 | refresh keeps the set intact although it rewrites a sort key; it succeeds exactly on a timer with a callback and moves its deadline to now + period |
| `TimerSpec.ResetIntegrity` | sylar/timer.cpp:53-76 | reset keeps the set intact; new period and deadline, counted from now or from the old arming time; early return for the same period |
| `TimerSpec.ResetIsArm` | sylar/timer.cpp:53-76 | past its guards, reset is the re-keying through the locked `addTimer` |
| `TimerSpec.ArmIntegrity` | sylar/timer.cpp:155-165 | the locked `addTimer`: the set stays intact, and a wake-up is asked for exactly when the timer is at the front and none is pending |
| `TimerSpec.AddIntegrity` | sylar/timer.cpp:85-90 | adding a timer keeps every earlier one and puts the new one into the set |
| `TimerSpec.RearmAllExact` | sylar/timer.cpp:139-147 | the re-arm loop: recurring timers are re-keyed to now + period and are back in the set, one-shot timers lose their callback, all others are untouched |
| `TimerSpec.ExpiredPrefixIsDue` | sylar/timer.cpp:134-137 | without rollover the erased prefix is exactly the timers with deadline <= now; with rollover it is the whole set |
| `TimerSpec.ExpireExact` | sylar/timer.cpp:118-148 | one callback per expired timer in (deadline, address) order; afterwards the set is the survivors and the re-keyed recurring timers, and nothing else changed |
| `TimerSpec.ProbeIrrelevant` | sylar/timer.cpp:133-135 | the address of the probe timer never matters |
| `TimerSpec.RolloverExactly` | sylar/timer.cpp:167-175 | when a rollover is detected, in 64-bit arithmetic, including clocks below one hour |
| `TimerRuns.StepKeepsInv` | sylar/timer.cpp:29-175 | every operation keeps set integrity, the life stories, the wake-up bookkeeping and the arming times |
| `TimerRuns.SetIntegrity` | sylar/timer.cpp:5-17 | in every reachable state the set is strictly sorted, holds exactly the timers with a callback, and `find` locates each |
| `TimerRuns.WakeUps` | sylar/timer.cpp:103-165 | at most one wake-up between two `getNextTimer` calls; with a monotone clock and no wrap, while none is pending the last seen front is at or before every armed deadline |
| `TimerRuns.LifeStory` | sylar/timer.cpp:29-148 | over any run a one-shot callback is handed out or successfully cancelled at most once in all, exactly once when it is over; no hand-out comes before arming time + period |
| `TimerRuns.OverIsOver` | sylar/timer.cpp:29-148 | a timer whose callback is gone is never handed out or cancelled again, whatever follows |
| `TimerRuns.ResetKeepsArmingTime` | sylar/timer.cpp:66-74 | reset without `from_now` preserves the arming time |
| `TimerRuns.RolloverMissesWakeUp` | sylar/timer.cpp:141-145 | a run in which a detected rollover leaves a deadline before the sleeper's with no wake-up pending: the condition of `WakeUps` is needed |
| `Timers.TimeManager.SetLowerBound` | sylar/timer.cpp:134 | `lower_bound` on the ordered set |
| `Timers.TimeManager.SetFind` | sylar/timer.cpp:33 | `find` on the ordered set |
| `Timers.TimeManager.SetInsert` | sylar/timer.cpp:156 | `insert` on the ordered set |
| `Timers.TimeManager.SetErase` | sylar/timer.cpp:34 | `erase` on the ordered set |
| `Timers.TimeManager.Cancel` | sylar/timer.cpp:29-38 | the objects follow `TimerSpec.Cancel`; the erase is at a valid position |
| `Timers.TimeManager.Refresh` | sylar/timer.cpp:39-52 | the objects follow `TimerSpec.Refresh` |
| `Timers.TimeManager.Reset` | sylar/timer.cpp:53-76 | the objects follow `TimerSpec.Reset`, and tell whether to wake the sleeper |
| `Timers.TimeManager.ArmTimer` | sylar/timer.cpp:155-165 | the objects follow `TimerSpec.Arm` |
| `Timers.TimeManager.AddTimer` | sylar/timer.cpp:85-90 | the objects follow `TimerSpec.Add` with a fresh timer |
| `Timers.TimeManager.GetNextTimer` | sylar/timer.cpp:103-116 | clears the pending flag and gives the remaining time of the front, 0 if due, all ones if there is none |
| `Timers.TimeManager.DetectClockRollover` | sylar/timer.cpp:167-175 | the test of `TimerSpec.Rollover`, and the new previous time |
| `Timers.TimeManager.ListExpiredCb` | sylar/timer.cpp:118-148 | the objects follow `TimerSpec.Expire`: callbacks, set, keys |
| `Timers.TimeManager.RearmLoop` | sylar/timer.cpp:139-147 | the loop over the expired timers follows `TimerSpec.RearmAll` |
| `Timers.TimeManager.HasTimer` | sylar/timer.cpp:150-153 | whether the set is non-empty |
| `IdleWait.WaitBounded` | sylar/iomanager.cpp:293-301 | the wait is in 0..3000 and at most the remaining time exactly when the `(int)` cast is harmless; otherwise it is negative, without limit |
| `IdleWait.FarDeadlineHasNoLimit` | sylar/iomanager.cpp:296 | a deadline 2^31 ms ahead makes the wait unlimited |
| `IdleWait.WaitLoop` | sylar/iomanager.cpp:292-306 | after any number of EINTRs every call of `epoll_wait` gets the same argument |
| `IdleWait.BackByTheDeadline` | sylar/iomanager.cpp:279-306 | clock plus wait never exceeds any armed deadline that is still ahead |
| `IdleWait.NeverOversleeps` | sylar/iomanager.cpp:279-306 | over whole runs: until a wake-up is asked for, a worker that waits is back by every deadline armed then, also by those added while it waited |
| `IdleWait.SleepIsWhole` | sylar/hook.cpp:153 | `sleep` arms the whole time exactly up to 4294967 seconds (32-bit product) |
| `IdleWait.NanosleepIsWhole` | sylar/hook.cpp:176-190 | `nanosleep` arms the whole time exactly below 2^31 ms; beyond, the deadline can lie in the past |
| `EventSpec.AddEventKeeps` | sylar/iomanager.cpp:99-146 | aborts exactly on a registered direction; succeeds exactly when the kernel grants; then the waiter is in the slot; a refusal changes nothing but the size; invariant and waiters kept |
| `EventSpec.DelEventIsSilentCancel` | sylar/iomanager.cpp:148-180 | same table as `cancelEvent`, but the waiter is dropped instead of woken |
| `EventSpec.CancelEventKeeps` | sylar/iomanager.cpp:182-212 | succeeds exactly on a registered direction with a granted call; the one waiter goes to the queue and the slot is empty |
| `EventSpec.CancelAllKeeps` | sylar/iomanager.cpp:214-251 | never fails its assertion; wakes every waiter of the descriptor, reader first, and leaves the entry idle |
| `EventSpec.DispatchKeeps` | sylar/iomanager.cpp:316-362 | fails the assertion of `triggerEvent` exactly when granted and an unregistered direction is reported with a registered one; otherwise wakes exactly the reported directions |
| `EventSpec.GrowKeepsInv` | sylar/iomanager.cpp:88-97 | growth keeps every entry in its place, adds idle ones, covers the descriptor |
| `EventSpec.RealEventsAre` | sylar/iomanager.cpp:327-336 | an error or a hang-up counts as both directions |
| `EventRuns.TableOverRuns` | sylar/iomanager.h:36-60 | after any operations, with kernel calls failing at will: bit set iff the slot has a scheduler and exactly one of fiber and callback; pending count = bits set; kernel mask = events; accepted = waiting + woken + dropped, by content |
| `EventRuns.AbortsExactly` | sylar/iomanager.cpp:112-117 | a run ends in a failed assertion if and only if some operation adds to a registered direction or is over-reported |
| `EventRuns.HangUpAborts` | sylar/iomanager.cpp:327-329 | a hang-up on a descriptor with one registered direction fails the assertion |
| `EventRuns.ResizeKeepsEntries` | sylar/iomanager.cpp:88-97 | entries are never replaced while the table grows |
| `EventRuns.DispatchOnIsDispatch` | sylar/iomanager.cpp:322-361 | the dispatch loop works on the context that the kernel hands back, not on the vector; for a context in the vector that is `EventSpec.Dispatch` |
| `EventRuns.RacingResizeOrphansWaiter` | sylar/iomanager.cpp:88-110 | two threads that resize one after the other: the first one's waiter leaves the vector, and cannot be cancelled, if and only if the second size does not cover its descriptor; count and interest list stay |
| `EventRuns.OrphanIsReachedByReadinessOnly` | sylar/iomanager.cpp:88-110 | such a waiter is out of reach of `delEvent`, `cancelEvent` and `cancelAll`, also after the vector has grown again, and blocks new registrations; its readiness still wakes it |
| `EventSteps.DispatchAllKeeps` | sylar/iomanager.cpp:316-362 | the dispatch loop as a whole keeps the invariant and the waiters |
| `EventSteps.WellReportedNeverAborts` | sylar/iomanager.cpp:316-362 | when each descriptor is reported once, and only for registered directions, no turn of the loop fails |
| `IOManagers.FdContext.TriggerEvent` | sylar/iomanager.cpp:37-48 | clears the bit, moves the callback or else the fiber to the end of the queue, clears the scheduler |
| `IOManagers.FdContext.ResetContext` | sylar/iomanager.cpp:31-35 | empties one slot |
| `IOManagers.IOManager.constructor` | sylar/iomanager.cpp:50-72 | 32 idle contexts; the invariant holds |
| `IOManagers.IOManager.ContextResize` | sylar/iomanager.cpp:88-97 | context objects that exist stay the same objects, new ones carry their index |
| `IOManagers.IOManager.AddEvent` | sylar/iomanager.cpp:99-146 | the objects follow `EventSpec.AddEvent`; 0 or -1; the vector only grows |
| `IOManagers.IOManager.DelEvent` | sylar/iomanager.cpp:148-180 | the objects follow `EventSpec.DelEvent`; nothing is queued |
| `IOManagers.IOManager.CancelEvent` | sylar/iomanager.cpp:182-212 | the objects follow `EventSpec.CancelEvent`; the queue gains exactly the waiter, unpinned |
| `IOManagers.IOManager.CancelAll` | sylar/iomanager.cpp:214-251 | the objects follow `EventSpec.CancelAll`; the queue gains the waiters in order |
| `IOManagers.IOManager.ReadReport` | sylar/iomanager.cpp:327-336 | the bit operations on a report give `EventSpec.RealEvents` |
| `IOManagers.IOManager.DispatchOne` | sylar/iomanager.cpp:322-361 | one turn of the dispatch loop follows `EventSpec.Dispatch` |
| `IOManagers.IOManager.DispatchLoop` | sylar/iomanager.cpp:316-362 | the whole loop follows `EventSteps.DispatchAll`: table and queue |
| `QueueSpec.ScanExact` | sylar/scheduler.cpp:130-150 | the scan takes the first entry that is unpinned or pinned to this thread and is no EXEC fiber; `tickle_me` iff an entry pinned elsewhere precedes the stopping point |
| `QueueSpec.ScheduleAllExact` | sylar/scheduler.h:55-67 | a batch appends its non-empty items in order and asks for a tickle iff the queue was empty and the batch was not |
| `QueueSpec.ServesInOrder` | sylar/scheduler.cpp:130-150 | over every run each thread serves its entries first in, first out, but for fibers that were EXEC when passed over |
| `Schedulers.Scheduler.ScheduleNoLock` | sylar/scheduler.h:88-95 | an empty item is not queued; whether the queue was empty |
| `Schedulers.Scheduler.Schedule` | sylar/scheduler.h:44-53 | the single form and its tickle |
| `Schedulers.Scheduler.ScheduleBatch` | sylar/scheduler.h:55-67 | the non-empty callbacks are moved into the queue in order, every source is left empty, at most one tickle |
| `Schedulers.Scheduler.FindNext` | sylar/scheduler.cpp:132-150 | the loop of the scan computes `QueueSpec.Scan` |
| `Schedulers.Scheduler.TakeNext` | sylar/scheduler.cpp:130-153 | the entry found is removed, the others keep their order, and a fiber that is taken is not EXEC |
| `Schedulers.Fiber.Reset` | sylar/fiber.cpp:151-163 | from TERM, INIT or EXCEPT to INIT with the new callback |
| `Schedulers.Fiber.SwapIn` | sylar/fiber.cpp:165-179 | not EXEC before, EXEC and current afterwards |
| `Schedulers.Fiber.YieldToReady` | sylar/fiber.cpp:109-113 | READY, and back on the main fiber |
| `Schedulers.Fiber.YieldToHold` | sylar/fiber.cpp:115-120 | asserts EXEC and leaves it |
| `Schedulers.Fiber.Finish` | sylar/fiber.cpp:126-149 | TERM without callback, or EXCEPT |
| `Schedulers.Worker.RunFiber` | sylar/scheduler.cpp:154-167 | the fiber branch: state as swapped out, counter back |
| `Schedulers.Worker.RunCallback` | sylar/scheduler.cpp:168-190 | the callback branch: the spare fiber is reused or made; requeued if READY, kept as INIT if finished, marked HOLD and let go otherwise; counter back |
| `Schedulers.Worker.RunIdle` | sylar/scheduler.cpp:211-220 | the idle branch: leaves when the idle fiber has ended; counter back |
| `Schedulers.Worker.Turn` | sylar/scheduler.cpp:126-222 | whatever the entered fiber does: all assertions hold, `cb_fiber` is null or INIT at the next head, both counters are back; a READY fiber is queued again in the callback branch only |
| `Fleet.SwapInKeeps` | sylar/fiber.cpp:165-179 | in the step system the assertion of `swapIn` holds at every entry, and no finished fiber is entered |
| `Fleet.LoadCallbackKeeps` | sylar/fiber.cpp:151-163 | in the step system `Fiber::reset` always finds the spare in state INIT |
| `Fleet.SettleKeeps` | sylar/scheduler.cpp:182-190 | the end of the callback branch keeps the lifecycle invariant; READY does not occur in this system |
| `Fleet.SwapOutKeeps` | sylar/fiber.cpp:115-120 | swapping out keeps the lifecycle invariant |
| `Fleet.TakeKeeps` | sylar/scheduler.cpp:146-148 | taking an entry keeps each fiber on one worker at most |
| `RuntimeRuns.DoKeeps` | sylar/scheduler.cpp:116-224 | every action of every worker, fiber and of user code keeps the invariant of the whole runtime |
| `RuntimeRuns.StartInv` | sylar/iomanager.cpp:50-72 | the initial state satisfies it |
| `RuntimeTheorems.OneWakeUp` | sylar/hook.cpp:96-132 | over every run and interleaving: a waiting fiber is held in exactly one place, a running or finished one nowhere; a running fiber is on one worker; no finished fiber is about to be entered |
| `RuntimeTheorems.ExactlyOnePlace` | sylar/hook.cpp:144-158 | of queue, event slots, armed timers, workers' hands and closures about to run, exactly one holds a waiting fiber, once |
| `RuntimeTheorems.AssertionsHold` | sylar/scheduler.cpp:154-221 | at every point of every run the state assertions of `swapIn`, `reset` and `YieldToHold` hold; with atomic increments the counters equal the workers inside the brackets |
| `Counters.StepDrifts` | sylar/scheduler.h:162-163 | a load or a store of a counter keeps it right if and only if the store overwrites nothing |
| `Counters.RunDrifts` | sylar/scheduler.cpp:156-216 | over every interleaving of loads and stores a counter is off by exactly what stores have overwritten, modulo 2^64 |
| `Counters.RightExactly` | sylar/scheduler.cpp:156-216 | so from a right start it is the number of workers inside if and only if what was overwritten cancels out |
| `Counters.LostIncrement` | sylar/scheduler.cpp:156-158 | two increments that overlap: when one of the workers is out again, the counter reads as before although the other is inside |
| `RuntimeTheorems.TimeoutsAreHonest` | sylar/hook.cpp:101-130 | ETIMEDOUT is reported only after a timer of the same call fired, not before its arming time plus timeout |
| `RuntimeTheorems.ReturnsAreClean` | sylar/hook.cpp:118-130 | a call that returned has no armed timer; its fiber, back in user code, is in no event slot and no queue entry |
| `TimeoutRuns.LeftoverClosure` | sylar/hook.cpp:103-110 | both steps of a closure whose call has returned: the first does nothing; the second, with the kernel's consent, moves exactly the one waiter of the descriptor and direction to the queue; no call's flag, result or timer changes |
| `TimeoutRuns.WokenInVainRetries` | sylar/hook.cpp:127-132 | a call woken with its flag clear gets no result and is back before the system call |
| `TimeoutRuns.OnlyOwnClosuresTimeOut` | sylar/hook.cpp:103-128 | over runs: as long as none of its own closures sets its flag, a call does not end with ETIMEDOUT, whatever closures left over from others do |
| `TimeoutRuns.TimeoutInvKept` | sylar/hook.cpp:101-132 | every action of anyone keeps the account of timeouts |
| `TimeoutRuns.TimeoutAccounted` | sylar/hook.cpp:101-132 | over every run, for a call with a timeout from arming until it cancels its timer: its closure is in exactly one of armed timer, queue, a worker's hand, closure about to run, with the flag clear; or the flag is set and exactly one closure is on its way to `cancelEvent`; or the timeout is spent |
| `RuntimeTheorems.ResultsAreOwn` | sylar/hook.cpp:127-136 | a call's result comes from its own return only and its flag from its own closures only; descriptor, direction and timeout never change |
| `RuntimeTheorems.StopIsStable` | sylar/iomanager.cpp:268-276 | once `stopping()` holds with nothing in a worker's hands, it holds after every action that does not come from outside |
| `RuntimeTheorems.StopIsStableOverRuns` | sylar/iomanager.cpp:268-276 | and throughout every run of such actions |
| `RuntimeTheorems.InFlightUndoesStop` | sylar/scheduler.cpp:145-156 | otherwise the worker that carries an entry or expired callbacks undoes it in one or two actions: scan and count, expiry and schedule are not one step in the code |
| `RuntimeWitnesses.StopWhileInFlight` | sylar/scheduler.cpp:145-156 | a run that comes to such a state: submit, scan, stop |
| `RuntimeTheorems.NothingLeftBehind` | sylar/scheduler.cpp:210-214 | when every worker has left `run`: no armed timer, queued entry, running fiber or pending event, unless a stop check passed while work was in flight or work came from outside after `stop` |
| `RuntimeWitnesses.HastyStopLeavesWork` | sylar/scheduler.cpp:210-214 | a run with two workers in which such a check passed: all workers have left, and an entry is in the queue |
| `RuntimeWitnesses.LateSubmissionIsLeft` | sylar/scheduler.cpp:210-214 | a run in which a submission came after `stop`: the worker has left, and it is in the queue |
| `RuntimeTheorems.SecondHoldSticks` | sylar/scheduler.cpp:155-167 | a fiber that swaps out to wait is left EXEC, with no worker about to change that, if and only if it was running in the fiber branch |
| `RuntimeTheorems.FirstHoldSettles` | sylar/scheduler.cpp:168-190 | in the callback branch two more actions of the worker leave it HOLD, with no worker, ready to be entered again |
| `RuntimeWitnesses.SleepingFiberIsStuck` | sylar/scheduler.cpp:155-167 | a run: a fiber handed to `schedule` sleeps and is stuck |
| `RuntimeTheorems.ResumedInFiberBranch` | sylar/scheduler.cpp:154-158 | every resumption after a wait is in the fiber branch, so the second wait is such a swap-out |
| `RuntimeTheorems.StuckForever` | sylar/scheduler.cpp:141-145 | such a fiber never runs again, whatever happens: the scan skips it |
| `RuntimeTimeouts.SpentStays` | sylar/hook.cpp:103-110 | once a closure has set the flag and finished, no closure of that call ever cancels again |
| `TimeoutRuns.BecomesStranded` | sylar/hook.cpp:101-123 | an action leaves a call waiting with no timeout to come if and only if it registers the call after its timeout is spent or is the call's own `cancelEvent`, refused by the kernel |
| `TimeoutRuns.RefusedCancelStrands` | sylar/iomanager.cpp:203-208 | the second of these: the flag is set, `epoll_ctl` fails, the waiter stays |
| `TimeoutRuns.StrandedRunsHaveCause` | sylar/hook.cpp:101-123 | a run that leaves a call stranded contains one of these two |
| `RuntimeTimeouts.TimeoutBeforeTheWait` | sylar/hook.cpp:101-123 | the first of them at length: when the closure is about to run between arming and `addEvent`, three actions strand the call |
| `RuntimeWitnesses.CallIsStranded` | sylar/hook.cpp:101-123 | a run from the start that strands a call this way |
| `RuntimeTimeouts.StrandedForever` | sylar/hook.cpp:114-123 | a stranded call stays in its slot however far the clock goes, as long as nothing else ends its wait |
| `RuntimeTimeouts.OnlyOthersEndIt` | sylar/hook.cpp:114-123 | what can end it: readiness, user code, or the leftover closure of another call; never its own timers |
| `HookedCalls.DoIo` | sylar/hook.cpp:72-137 | which early return is taken when; past them the turns come out as the system call, the kernel and the flag say, in the steps of the program of a blocking call, and the first that ends the call decides its result and `errno`; whatever other threads do to timers, events and queue while the fiber is out, on return no timer of the call is in the set |
| `HookedCalls.Manager.Arm` | sylar/hook.cpp:99-111 | the condition timer: one shot, with the timeout of the call and its closure |
| `HookedCalls.Manager.Register` | sylar/hook.cpp:113 | the running fiber enters the slot as in `EventSpec.AddEvent`; fails its assertion iff the direction is taken |
| `HookedCalls.Manager.Wait` | sylar/hook.cpp:122-127 | other threads act, then the timer is cancelled, then the flag is read: no timer of the call is left, also if it expired meanwhile |
| `HookedCalls.CallUntilAnswered` | sylar/hook.cpp:92-95 | the first answer that is not EINTR |
| `HookedCalls.DoRound` | sylar/hook.cpp:91-133 | one turn from `retry` on the objects: how it ends, what it returns, and that it leaves no timer of the call behind; it breaks off iff the direction is taken or there is no memory for the timer |
| `IoProgram.PathFollows` | sylar/hook.cpp:91-137 | turns of which none but the last ends the call are a path of the program, to its end or back to `retry` |
| `IoProgram.EveryPathIsTaken` | sylar/hook.cpp:91-137 | every path of the program that comes to an end is a sequence of such turns |
| `Hooks.FibersRunTheProgram` | sylar/hook.cpp:91-137 | in the step system every action of a fiber inside a call is the next step of that program |
| `Hooks.CallsFollowTheProgram` | sylar/hook.cpp:91-137 | every action of anyone leaves a fiber in a call where it is or takes it one step of the program further |
| `PatternSpec.RoundTrip` | sylar/log.cc:416-487 | parsing the shortest printing of a normal token list gives the list back, without error |
| `PatternSpec.ParseUndoesPrint` | sylar/log.cc:416-487 | the same for every printing, with or without braces around empty formats |
| `PatternSpec.ParsePrints` | sylar/log.cc:416-487 | for every pattern without an open brace, the consumed spans of the tokens, in order, tile the pattern exactly once |
| `PatternSpec.ParseIffPrints` | sylar/log.cc:416-487 | for normal token lists, a pattern parses to the list if and only if it is a printing of it |
| `PatternSpec.PercentIsNoEscape` | sylar/log.cc:415-431 | the documented escape never works: whatever follows `%%`, open braces included, the tokens differ from those of a literal percent sign and the rest |
| `PatternSpec.UnclosedResumes` | sylar/log.cc:478-482 | an open brace: when it occurs, and that the message precedes the waiting literal and the scan resumes behind the percent sign |
| `PatternSpec.OutputOfPrinting` | sylar/log.cc:407-413 | for a printing of a normal list: faulty iff some key is unknown; otherwise the output is the literals and fields in order |
| `LogFormatters.LogFormatter.ScanDirective` | sylar/log.cc:433-470 | the inner loop terminates, all substrings are in range, and it finds what `PatternSpec.FindDirective` says |
| `LogFormatters.LogFormatter.Scan` | sylar/log.cc:417-487 | the outer loop yields the tokens of `PatternSpec.Parse`; the error flag iff a brace is open |
| `LogFormatters.LogFormatter.Init` | sylar/log.cc:416-523 | the items of the tokens, in order; `m_error` iff a brace is open or a key is not in the table |
| `LogFormatters.LogFormatter.Format` | sylar/log.cc:407-413 | the in-order concatenation of the items' outputs |
| `ConfigSpec.MembersExact` | sylar/config.cc:23-39 | the list is, in pre-order and each once, exactly the nodes all of whose path prefixes are valid names, under their dotted paths |
| `ConfigSpec.ReachableMeans` | sylar/config.cc:26-29 | reachable means that the name of every prefix of the path is valid |
| `ConfigSpec.ListedNames` | sylar/config.cc:51 | every listed name is valid, so lower-casing changes nothing |
| `ConfigSpec.NineIsRefused` | sylar/config.h:331 | the valid names are the documented ones without the digit 9 |
| `ConfigSpec.LoadedValue` | sylar/config.cc:41-63 | after loading, a variable has the value of the last listed node with its name that converts, else its old one |
| `ConfigSpec.ListenersSeeChains` | sylar/config.h:387-399 | over any sequence of updates and (de)registrations, a listener present throughout sees a chain of changes from the value before to the value after; an absent one sees nothing |
| `ConfigSpec.RacingUpdatesBreakTheChain` | sylar/config.h:388-398 | two updates that overlap between the locks leave every listener with calls that are no chain |
| `Config.ConfigVar.SetValue` | sylar/config.h:387-399 | nothing for an equal value, else every listener in key order with old and new, then the new value |
| `Config.ConfigVar.FromString` | sylar/config.h:363-372 | sets the converted value or nothing; returns false either way |
| `Config.ConfigVar.AddListener` | sylar/config.h:410-416 | the key is new and the largest |
| `Config.ConfigVar.DelListener` | sylar/config.h:422-425 | removes one key, keeps the order |
| `Config.ConfigVar.ClearListeners` | sylar/config.h:441-444 | removes all |
| `Config.Registry.ListAllMember` | sylar/config.cc:23-39 | the recursion appends `ConfigSpec.Members` to its output |
| `Config.Registry.LoadOne` | sylar/config.cc:45-61 | one listed node changes at most the variable of its name |
| `Config.Registry.LoadFromYaml` | sylar/config.cc:41-63 | every variable is set in turn to each value that the list offers it |
| `FdFlags.ReadsLikePlain` | sylar/hook.cpp:347-378 | what the caller reads equals a plain descriptor's flags if and only if the last setting of O_NONBLOCK asked for is the last one granted; all other bits always agree |
| `FdFlags.GrantedReadsLikePlain` | sylar/hook.cpp:347-378 | with all calls granted: equal iff there was a call or the socket was made without SOCK_NONBLOCK |
| `FdFlags.KernelStaysNonblocking` | sylar/hook.cpp:347-363 | under F_SETFL alone the kernel's bit stays set; in general, unless the last granted change is a FIONBIO with 0 |
| `FdFlags.FionbioDefeatsTheHook` | sylar/hook.cpp:426-441 | after FIONBIO 0, `do_io` takes its waiting path on a descriptor that blocks the thread |
| `FdFlags.FdCtx.constructor` | sylar/fd_manager.cpp:15-59 | a socket gets O_NONBLOCK iff both `fcntl` calls are granted, other flags stay; it counts as non-blocking either way, which is right iff it was or became so |
| `FdFlags.FdCtx.SetFl` | sylar/hook.cpp:347-363 | follows `FdFlags.Hooked` |
| `FdFlags.FdCtx.GetFl` | sylar/hook.cpp:364-378 | the virtual flags; a failure passes through unchanged only for an untracked or user-nonblocking descriptor |
| `FdFlags.FdCtx.Fionbio` | sylar/hook.cpp:426-441 | follows `FdFlags.Hooked` |

## Left out

- `sleep`, `Scheduler::run` and `IOManager::idle` as whole loops: relations between states, because their meaning is in the interleaving; `do_io`, the run loop's turn, the wait loop and the dispatch loop are also methods.
- RuntimeTheorems.NothingLeftBehind: says nothing when a stop check passed while work was in flight or work came late, because then the claim is false of the code (`HastyStopLeavesWork`, `LateSubmissionIsLeft`); assumes that increments of the counters are not lost.
- RuntimeTheorems.AssertionsHold: its counter equations assume that increments are not lost; `Counters` says what happens otherwise.
- RuntimeTheorems.StopIsStable: the same assumption, also for `StopIsStableOverRuns`.
- Fleet.SettleKeeps: READY does not occur in the step system; that branch is in `Schedulers.Worker.RunCallback`.
- RuntimeTheorems.TimeoutsAreHonest: a deadline is a bound only without a clock rollover and when it fits 64 bits, because a rollover expires every timer.
- Schedulers.Worker.Turn: one thread runs; what other threads do to the queue meanwhile is in the step system.
- Config.ConfigVar.SetValue: one step, listeners do not throw and do not call back into the variable; the gap between its locks is stated separately.
- `YieldToReady` in the step system, and `delEvent` on a slot that holds a fiber: both would lose or duplicate wake-ups by design; they are in the classes.
- `connect_with_timeout`: the same wait without the retry.
- `close`: its `cancelAll` is a user action of the step system. The early returns of `do_io` are in `HookedCalls.DoIo` only.
- HookedCalls.DoIo: other threads act only while the fiber is swapped out, and it is resumed at the end of their list; acts between two steps of the call are in the step system. `bad_alloc` and failed assertions end the process.
- Three things are one step though the code takes them under several locks: the stop check (timers, queue, counters), an operation on the event table with the append of what it wakes, and growth of the context vector with the operation that needs it.
- An increment or a decrement of a thread counter is one step in the step system; `Counters` takes it apart.
- The liveness test of a timeout closure and its setting of the flag: one step, as is the reading of the states of queued fibers by one scan.
- The wake-up pipe in the interest list, and that a written byte wakes a worker: the code does not guarantee which worker wakes.
- Addresses of timers: never reused, as long as handles to them are kept.
- Slots of other schedulers: every slot's scheduler is the manager itself.
- The table of descriptors that have an `FdCtx`: it does not grow in the code; a context is an existing object here.
- The text that yaml-cpp writes for a node and the conversion of texts: parameters; an exception of a conversion is `None`.
- Context switches, stacks, reference counts, mutexes, sockets, appenders, the fields' own formatting, and `LogDefine`: either outside the language or easy.
