# Verification of the netepoll thread pool

This project models the fixed-size thread pool of `netepoll/netepoll/threadpool.c`: a bounded ring buffer of
tasks, a mutex and a condition variable shared by any number of client threads and 1 to 64 workers, graceful and
immediate shutdown, and creation, joining and freeing of the pool, with the rollback of a creation that fails half way.
Its main results hold for every interleaving and every run.

`dafny verify dfyconfig.toml` checks everything.

## Files

| file | content |
|---|---|
| PoolTypes.dfy | the shared fields as a value, the effect of each critical section on them, the ring arithmetic |
| ThreadPool.dfy | the five functions and the worker loop as methods of a class, on an array, in place |
| PoolMachine.dfy | all threads as one transition system; a step is one action of one thread |
| Weights.dfy | weighted counts of workers and of completed tickets |
| PoolInvariant.dfy, PoolInvariantProof.dfy | the invariant of all reachable states, and that each step keeps it |
| PoolRuns.dfy | what only grows along a run, and step counts |
| Agreement.dfy | critical sections and whole adds of the transition system against the methods of the class |
| WholeCalls.dfy | whole calls of destroy and create, in both |
| Refinement.dfy | the bounded FIFO with modes open, graceful and immediate, and the refinement |
| Shutdown.dfy | graceful drain, immediate freeze, cost of a shutdown |
| DestroyCalls.dfy | one call of destroy, in the terms of its caller: flags passed in, code, tasks run, cost |
| Order.dfy | exactly once, overtaking, starvation, backpressure |
| Lifecycle.dfy | lock discipline, creation, what a thread can wait for, lifetime, return codes |
| Progress.dfy | wake-ups, termination measure, exactly when a destroy in progress can return |
| OpenPool.dfy | progress of an open pool: exactly when a pending task can be taken and a destroy can get through |
| SingleDestroyer.dfy | runs with one destroy call: no abandoned lock, no deadlock |
| Abandonment.dfy | the destroy that keeps the lock, and the rollback of create |
| Witnesses.dfy | runs that reach what the pool does not prevent |

## How the code is modelled

- Threads: one creator, the workers, and any number of clients. A task that a worker runs may itself call add at any
  moment. Steps are as fine as the code's own shared actions: taking and releasing the mutex, each test, the enqueue, the
  signal, the broadcast, each join, the free. The unlocked `started++` of the creator is a read step and a write step.
- A step is enabled by the program counter of its thread. Only the three steps that acquire the mutex look at its owner
  (a worker's and a caller's lock, and the one inside free); that everybody else owns it when they should is proved
  (`LockDiscipline`).
- Condition variables follow POSIX.1-2017: waiting releases the mutex in the same step, a signal wakes one sleeper if
  there is one, a broadcast wakes all, and spurious wake-ups may come at any time (so a signal that wakes several is a
  signal and spurious wake-ups).
- These failures are branches of the step relation: `pthread_create`, the lock taken by add and by destroy, signal,
  broadcast and join. Unlocking never fails in the transition system, because only the owner unlocks
  (`LockDiscipline`) and POSIX knows no error of an unlock by the owner; in the class it can fail.
- The branch of destroy for a pool already shutting down, and a failed broadcast, leave with the mutex held, as the code
  does. `DestroyUnlocksIff`, `DestroyReturnsIff` and `DestroyCompletesIff` state exactly what follows,
  `SecondDestroyDeadlocks` gives a run. With one destroy call whose broadcast succeeds it never happens
  (`SingleDestroyNotDoomed`).
- A task accepted while n had been accepted before has ticket n; the tickets in `completed` are in order of completion.
- Assumed of the callers, as the code needs and does not check: clients start calls only after create returned the pool,
  and tasks do not destroy the pool that runs them. A client that is inside a call when the pool is freed has no defined
  next step, so its steps end there; `FreeIsSafeIff` says exactly when that happens and `FreedUnderClient` gives a run.

## Code and documentation

The comment in free says that the arrays are allocated after the mutex and the condition variable are initialised
(threadpool.c:255-257); the code allocates them before (118-126). The model follows the code. The header
promises a negative code "in case of error" for add (threadpool.h:79-80): with a failed signal the code returns one for
a task that is in the queue (`AddCodeIsItsEvent`). It promises a pool or NULL for create (threadpool.h:68): a NULL can
leave threads and an unfreed pool behind, since create ignores the result of its own destroy (`CreateRollsBack`).

## Model

| member | source | states |
|---|---|---|
| PoolTypes.Conservation | netepoll/netepoll/threadpool.c:181-184 | what was accepted is what was grabbed followed by what the ring holds from head on, for any number of wrap-arounds |
| PoolTypes.EnqueueKeepsRing | netepoll/netepoll/threadpool.c:165-184 | an add that is not refused puts its task behind the pending ones and overwrites none of them |
| PoolTypes.GrabKeepsRing | netepoll/netepoll/threadpool.c:289-292 | the slot at head holds the oldest pending task, and a grab removes just that |
| ThreadPools.ThreadPool.constructor | netepoll/netepoll/threadpool.c:111-120 | a new pool is open, with an empty valid ring of the size asked for |
| ThreadPools.ThreadPool.Add | netepoll/netepoll/threadpool.c:150-198 | the task enters behind all others if and only if the lock is got, the ring is not full and the pool is open; the code, in numbers: -1 exactly for no pool or no routine, 0 exactly when it entered and signal and unlock succeeded, -2 for a failed lock, signal or unlock, -3 for a full ring, and -4 for a set flag only if the ring is not full |
| ThreadPools.ThreadPool.TakeTurn | netepoll/netepoll/threadpool.c:278-292 | when a worker waits, leaves or grabs, and that it grabs the oldest pending task |
| ThreadPools.ThreadPool.RunToExit | netepoll/netepoll/threadpool.c:267-306 | a worker left alone in a shutdown runs all pending tasks in order if graceful and none if immediate, and uncounts itself once |
| ThreadPools.ThreadPool.Free | netepoll/netepoll/threadpool.c:244-264 | free is refused exactly for no pool or while workers are counted |
| ThreadPools.ThreadPool.Destroy | netepoll/netepoll/threadpool.c:200-242 | code (-1, -2, -4, -5 or 0, as numbers), tasks run, whether the pool is freed and whether the mutex stays locked, for every flag, mode and pthread result; only a pool still open must have all its counted workers alive |
| ThreadPools.ThreadPool.Create | netepoll/netepoll/threadpool.c:97-148 | arguments outside 1 to 64 threads and 1 to 65536 slots give nothing; else all threads and an empty open pool, or NULL and exactly the threads before the first failure; the pool of a NULL is freed if and only if the lock, broadcast, unlock and joins of the rollback all succeed |
| Agreement.AddAgrees | netepoll/netepoll/threadpool.c:161-193 | the critical section of add in the transition system ends in the fields, history and code of the method |
| Agreement.TurnAgrees | netepoll/netepoll/threadpool.c:278-292 | the same for the worker's turn |
| Agreement.SoloAdd | netepoll/netepoll/threadpool.c:150-197 | whenever a client that has the pool, or a task, is between two calls and the mutex is free, it can call add; code and effect of that call, if nobody interrupts it, for each task and each outcome of lock and signal |
| Agreement.TaskCanAdd | netepoll/netepoll/threadpool.c:295-298 | the add of a task on an open pool with room returns 0 in some run, with just its task entered |
| Agreement.WholeAddAgrees | netepoll/netepoll/threadpool.c:150-198 | that call, from its first step, and the method end in the same code, fields and histories |
| WholeCalls.WholeDestroyAgrees | netepoll/netepoll/threadpool.c:200-242 | a client's whole call of destroy on a quiet pool, from its first step and with the flags it passes, and the method end in the same code, fields, tasks run, freeing and mutex, for every outcome of lock, broadcast and joins |
| WholeCalls.WholeCreateAgrees | netepoll/netepoll/threadpool.c:97-148 | create and a run of the creator, from the arguments on, end in the same number of threads, the same pool or rollback, and the same fields, whichever thread fails to start and whatever fails in the rollback |
| PoolInvariantProof.InvStep | netepoll/netepoll/threadpool.c:131-304 | every step of every thread, failures included, keeps the whole invariant |
| PoolInvariantProof.ReachableInv | netepoll/netepoll/threadpool.c:97-306 | all states of all runs satisfy it |
| Refinement.StepRefines | netepoll/netepoll/threadpool.c:161-193 | each step does to a bounded FIFO with three modes what its outcome says, and every step with an outcome is made by the owner of the mutex |
| Refinement.PoolRefinesFifo | netepoll/netepoll/threadpool.c:97-306 | every run of creator, workers and clients is a run of the bounded FIFO |
| Refinement.FifoConserves | netepoll/netepoll/threadpool.h:72-83 | the FIFO loses, makes up and reorders nothing |
| Refinement.FifoStaysClosed | netepoll/netepoll/threadpool.h:91-93 | after a close nothing is accepted, after an immediate one nothing is taken, and the mode is final |
| Refinement.RunIsFifo | netepoll/netepoll/threadpool.c:161-298 | over a whole run, tasks taken in order are a prefix of tasks accepted in order, and the ring holds the rest |
| Refinement.AddCodeIsItsEvent | netepoll/netepoll/threadpool.c:150-197 | in every run, from the call with its task to the return, the code is 0 if and only if this call had that very task accepted and its signal did not fail, -1 iff the routine is NULL, -2 iff nothing happened or the accept's own signal failed, -3 iff a full FIFO refused it, -4 iff a closed one did |
| ShutdownTheorems.DestroyedClean | netepoll/netepoll/threadpool.c:229-241 | a destroy that returns 0 leaves no live worker, started at zero, the pool really freed, and every grabbed task completed once |
| ShutdownTheorems.GracefulDrain | netepoll/netepoll/threadpool.h:91-93 | a graceful destroy that returns 0: every task accepted before the flag ran to completion exactly once, the ring is empty, nothing was accepted after |
| ShutdownTheorems.ImmediateDrop | netepoll/netepoll/threadpool.c:219-240 | an immediate destroy that returns 0: what ran is exactly what had been grabbed at the flag, and what is dropped is exactly the rest |
| ShutdownTheorems.ImmediateFreeze | netepoll/netepoll/threadpool.c:282-286 | from the immediate flag on, ring, head, tail, count and histories never change, in any run |
| ShutdownTheorems.ClosedForGood | netepoll/netepoll/threadpool.c:174-178 | once the flag is set nothing is accepted and the mode stays, in any run |
| ShutdownTheorems.ShutdownCost | netepoll/netepoll/threadpool.c:219-234 | between flag and return of 0 there are exactly count grabs (none if immediate) and thread_count exits, in every schedule |
| DestroyCalls.DestroyCodes | netepoll/netepoll/threadpool.c:200-242 | in every run, from the call with its flags to the return: if this call set the flag the mode is the one of the lowest bit of the flags passed, and the code is 0 with all its joins good, -5 with one failed, -2 with a failed broadcast and the mutex kept; if it did not, -2 without the mutex and -4 with it kept |
| DestroyCalls.DestroyKeepsItsWord | netepoll/netepoll/threadpool.h:91-93 | a destroy that returns 0, seen from the state in which it set the flag: with the lowest bit of the flags passed set, all accepted tasks ran, once each; without it just those already grabbed did, and the rest stay in the ring in order |
| DestroyCalls.DestroyCost | netepoll/netepoll/threadpool.c:208-241 | after it set the flag such a call costs as many grabs as tasks were pending then if that bit is set, else none, and one exit per thread, in every schedule |
| OrderTheorems.ExactlyOnce | netepoll/netepoll/threadpool.c:289-298 | each accepted task is pending, or with exactly one worker, or completed once, never in two of these |
| OrderTheorems.NoRepeat | netepoll/netepoll/threadpool.c:288-298 | no task completes twice |
| OrderTheorems.BoundedOvertaking | netepoll/netepoll/threadpool.c:183-298 | when a task completes, at most threads - 1 of those accepted before it have not |
| OrderTheorems.SingleWorkerOrder | netepoll/netepoll/threadpool.c:272-298 | with one worker, completion order is acceptance order |
| OrderTheorems.StarvationBound | netepoll/netepoll/threadpool.c:165-292 | a task accepted behind p others is taken by exactly the (p+1)-th later grab, in every run |
| OrderTheorems.Backpressure | netepoll/netepoll/threadpool.h:45-46 | accepted but unfinished tasks are the pending and the carried ones, and never exceed queue size plus threads, nor 65536 + 64 |
| OrderTheorems.WrappedIndices | netepoll/netepoll/threadpool.c:165-184 | head, tail and count agree with unbounded counters, and stay far inside a C int |
| LifecycleTheorems.MutualExclusion | netepoll/netepoll/threadpool.c:274-303 | at most one thread is in a critical section, and it is the owner |
| LifecycleTheorems.LockDiscipline | netepoll/netepoll/threadpool.c:161-193 | every access to queue, head, tail, count and shutdown is by the owner, only the owner unlocks, and the only unlocked writes are the creator's before any worker can leave |
| LifecycleTheorems.TasksRunUnlocked | netepoll/netepoll/threadpool.c:294-298 | no task body runs while its worker owns the mutex |
| LifecycleTheorems.StartedAccounting | netepoll/netepoll/threadpool.c:131-139 | started and thread_count at every moment, with the lag of one inside the start loop |
| LifecycleTheorems.NoLostIncrement | netepoll/netepoll/threadpool.c:137-138 | nothing writes started between the creator's read and write, since no worker can leave during the start loop |
| LifecycleTheorems.CreateReturnsPool | netepoll/netepoll/threadpool.c:131-141 | a create that succeeds returns all threads made, none leaving, and an empty open ring |
| LifecycleTheorems.CreatedAsAsked | netepoll/netepoll/threadpool.c:103-141 | in every run from 1 to 64 threads and 1 to 65536 slots asked for, the ring has the slots asked for, a created pool the threads, and the started count is that number as create returns |
| LifecycleTheorems.StuckIff | netepoll/netepoll/threadpool.c:150-306 | which threads cannot move without failures: exactly those waiting for a held mutex, for a worker to exit, for create, or at their end; between two calls add and destroy can always be called |
| LifecycleTheorems.CanFailIff | netepoll/netepoll/threadpool.c:132-231 | a thread can fail exactly where it makes a pthread call whose result the code looks at, whatever the others did |
| LifecycleTheorems.CreateRollsBack | netepoll/netepoll/threadpool.c:132-136 | once the rollback of a create that failed at thread i has ended, the pool is freed if and only if it returned 0, and then exactly i threads were made and have exited; else what is left behind; its shutdown is immediate unless it never got the mutex; no task was ever accepted |
| LifecycleTheorems.DestroyResult | netepoll/netepoll/threadpool.c:213-241 | in every reachable state: a destroy that released the mutex returned 0 if and only if it set the flag and the pool is freed, -5 only for a pool left unfreed; one that kept the mutex returned -2 if its own broadcast failed, else -4 |
| LifecycleTheorems.NothingAfterFree | netepoll/netepoll/threadpool.c:244-263 | after the pool is freed no worker and no creator has a step left, and the destroy that set the flag returned 0 |
| LifecycleTheorems.UseAfterFreeIff | netepoll/netepoll/threadpool.c:244-263 | in a freed pool a client is at rest or about to take the lock, and it has an action on the pool left if and only if it is about to take the lock |
| LifecycleTheorems.FreeIsSafeIff | netepoll/netepoll/threadpool.c:237-263 | freeing the pool leaves some client inside a call if and only if some client waits for the lock at that moment |
| LifecycleTheorems.FreeNeverRefuses | netepoll/netepoll/threadpool.c:237-247 | whoever reaches free finds started at zero and the pool not yet freed |
| LifecycleTheorems.AddResult | netepoll/netepoll/threadpool.h:79-80 | what each return code, as a number, says in every later state about the task being in the queue and the flag being set |
| LifecycleTheorems.NeverCallsNull | netepoll/netepoll/threadpool.c:157-159 | no worker ever holds a NULL routine |
| Progress.NoLostWakeup | netepoll/netepoll/threadpool.c:274-280 | while someone sleeps, each pending task is matched by a worker about to test, a signal due, or a failed signal |
| Progress.NeglectIff | netepoll/netepoll/threadpool.c:184-190 | of all steps, the one that leaves a pending task with all workers asleep and no signal due is the failure of a signal while all were asleep, and that one always does |
| Progress.SignalStrandsIff | netepoll/netepoll/threadpool.c:187-193 | an add that has queued its task leaves it stranded on return if and only if its signal failed and all workers were asleep |
| Progress.NeverNeglected | netepoll/netepoll/threadpool.c:184-190 | in a run without failed signals no task is ever stranded |
| Progress.NobodySleepsAgain | netepoll/netepoll/threadpool.c:222-224 | after the broadcast no worker is asleep in any later state |
| Progress.MeasureStep | netepoll/netepoll/threadpool.c:272-304 | after the broadcast each worker step uses up the measure and no other step adds to it |
| Progress.ShutdownTerminates | netepoll/netepoll/threadpool.c:222-304 | workers take at most four steps per pending task and six per thread after the broadcast, under every schedule |
| Progress.ProgressStep | netepoll/netepoll/threadpool.c:229-304 | no deadlock: a destroy that is not doomed always has an enabled step that brings its return nearer |
| Progress.CanReturn | netepoll/netepoll/threadpool.c:219-241 | from every such state some run ends with destroy returning 0 |
| Progress.DoomedForever | netepoll/netepoll/threadpool.c:212-217 | a mutex that a destroy keeps is never released |
| Progress.DestroyReturnsIff | netepoll/netepoll/threadpool.c:212-241 | a destroy in progress can return 0 if and only if the mutex is not held by a destroy that found the flag set or failed to broadcast |
| OpenPool.UnlockRun | netepoll/netepoll/threadpool.c:161-193 | the mutex of an open pool comes free by its owner's own steps unless a destroy owns it |
| OpenPool.PendingTaskIff | netepoll/netepoll/threadpool.c:274-298 | in an open pool without failed signals each pending task can be taken, without failures, spurious wake-ups or new calls, if and only if no immediate destroy already owns the mutex |
| OpenPool.DestroyCompletesIff | netepoll/netepoll/threadpool.c:208-241 | a destroy that waits for the mutex can return 0 if and only if the flag is unset and no other destroy owns the mutex |
| SingleDestroyer.SingleDestroyNotDoomed | netepoll/netepoll/threadpool.c:208-227 | in every run with at most one destroy call and no failed broadcast, no destroy ever goes away with the mutex |
| SingleDestroyer.SingleDestroyReturns | netepoll/netepoll/threadpool.c:219-304 | in every state of such a run the destroy that set the flag has an enabled step nearer its return, and a run in which it returns 0 |
| SingleDestroyer.SingleDestroyCompletes | netepoll/netepoll/threadpool.c:208-241 | from every state of such a run in which the destroy waits for the mutex, it can get it and return 0 |
| Abandonment.DestroyUnlocksIff | netepoll/netepoll/threadpool.c:213-217 | a destroy that owns the mutex can release it if and only if the flag was not yet set |
| Abandonment.AbandonedPoolIsDead | netepoll/netepoll/threadpool.c:214-227 | after a destroy kept the mutex no task is accepted or grabbed and no worker leaves, in any run |
| Abandonment.RollbackDoomedOnlyByBroadcast | netepoll/netepoll/threadpool.c:132-136 | only its own failed broadcast can leave a rollback with a mutex that is never released, and then the rollback itself holds it |
| Abandonment.FailedCreateCanFinish | netepoll/netepoll/threadpool.c:131-136 | whichever thread fails to start, the rollback can run, without further failures, to NULL with all threads exited and the pool freed |
| Witnesses.SecondDestroyDeadlocks | netepoll/netepoll/threadpool.c:212-217 | a reachable state in which a second destroy holds the mutex and from which the first never returns 0, in any run |
| Witnesses.FailedSignalStrands | netepoll/netepoll/threadpool.c:187-190 | a run in which a failed signal leaves a pending task with every worker asleep (the exact condition is NeglectIff) |
| Witnesses.FreedUnderClient | netepoll/netepoll/threadpool.c:237-263 | a run in which the pool is freed while a client is about to take its mutex (the exact condition is FreeIsSafeIff) |
| Witnesses.RollbackLeavesPool | netepoll/netepoll/threadpool.c:132-136 | a run in which create returns NULL with a live thread and an unfreed pool (the exact condition is in CreateRollsBack) |

## Left out

- Failures of malloc, `pthread_mutex_init` and `pthread_cond_init` and the cleanup at the end of create: allocation and initialisation are taken to succeed.
- The order of releases inside free: it is one step, taken when the mutex is free, that marks the pool freed.
- The worker's own pthread calls, whose results the code ignores, are taken to succeed; so is every unlock in the transition system.
- Fairness of the scheduler and time: progress is stated as enabled steps and a decreasing measure.
- The flags of create and add, which the code ignores, and all bits of the flags of destroy but the lowest.
- What tasks do, other than calling add; a task that destroys its own pool.
- ThreadPools.ThreadPool.Destroy: shows one schedule, in which each worker runs when it is joined; all schedules are the matter of ShutdownTheorems and Progress.
- NothingAfterFree: is about workers and the creator; what a client does on a freed pool is undefined in C and has no step here, see UseAfterFreeIff and FreeIsSafeIff.
- ThreadPools.ThreadPool.RunToExit: is the worker loop in a shutdown with no other thread moving; the loop under all schedules is the worker's part of the transition system.
- WholeCalls.WholeDestroyAgrees: is one schedule on a pool whose workers are between tasks; what destroy does in all schedules is the matter of DestroyCodes, DestroyKeepsItsWord and DestroyCost.
- CanFailIff: leaves out unlocking, which succeeds in the transition system, and the worker's own pthread calls, whose results the code ignores.
- DestroyReturnsIff: like DestroyCompletesIff and PendingTaskIff says what is possible, and ShutdownTerminates that workers cannot run for ever; that the scheduler picks the enabled steps is not modelled.
- The message queue and debug level helpers under `netepoll/lib_s/base` and the epoll server: other code, with no part in the pool.
