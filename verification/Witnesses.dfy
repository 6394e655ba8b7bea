/** Runs that reach what the pool does not prevent; the exact conditions are in the modules named with each. */
module Witnesses {
  import opened PoolTypes
  import opened PoolMachine
  import opened PoolInvariantProof
  import opened PoolRuns
  import opened LifecycleTheorems
  import opened Progress

  lemma ClientStep(s: State, c: nat, act: CallAct) returns (t: State)
    requires Reachable(s) && CallEnabled(s, Client(c), act)
    ensures Reachable(t) && t == DoCall(s, Client(c), act)
  {
    ReachableStep(s, CallStep(Client(c), act));
    t := DoCall(s, Client(c), act);
  }

  lemma WorkStep(s: State, i: nat, act: WorkerAct) returns (t: State)
    requires Reachable(s) && WorkerEnabled(s, i, act)
    ensures Reachable(t) && t == DoWorker(s, i, act)
  {
    ReachableStep(s, WorkerStep(i, act));
    t := DoWorker(s, i, act);
  }

  lemma StartStep(s: State, act: CreatorAct) returns (t: State)
    requires Reachable(s) && CreatorEnabled(s, act)
    ensures Reachable(t) && t == DoCreator(s, act)
  {
    ReachableStep(s, CreatorStep(act));
    t := DoCreator(s, act);
  }

  /** One thread, a queue of one, two clients. */
  function Small(): Params {
    Params(1, [Task(0, 0)], 2)
  }

  /** The small pool just after create returned it. */
  lemma SmallPool() returns (s: State)
    ensures Reachable(s)
    ensures s == State(InitFields([Task(0, 0)]).(threadCount := 1, started := 1), None, [AtLock], [Idle, Idle],
                       Created, false, [], [], [], 0, false, None)
  {
    s := Init(Small());
    ReachableInit(Small());
    s := StartStep(s, Spawn);
    s := StartStep(s, CountThread);
    s := StartStep(s, LoadStarted);
    s := StartStep(s, StoreStarted);
    s := StartStep(s, FinishCreate);
  }

  /** A task for client 1 to add. */
  const LATE := Task(1, 0)

  /** The small pool; if late is set, client 1 has called add and is about to take the lock. */
  lemma SmallPoolLate(late: bool) returns (s: State)
    ensures Reachable(s) && s.creator.Created? && !s.freed && s.lock == None && s.failedSignals == 0
    ensures s.clients == [Idle, if late then AddLock(LATE) else Idle] && s.mem.shutdown == Open
    ensures s.workers == [AtLock] && s.mem.count == 0 && s.mem.threadCount == s.mem.started == 1
  {
    s := SmallPool();
    if late { s := ClientStep(s, 1, StartAdd(LATE)); }
  }

  /** The same, with client 0 in a graceful destroy that has set the flag. */
  lemma SmallPoolClosing(late: bool) returns (s: State)
    ensures Reachable(s) && s.creator.Created? && !s.freed && s.mem.shutdown == Graceful
    ensures s.closing.Some? && s.closing.value.closer == Client(0) && s.failedSignals == 0
    ensures s.clients == [DestroyBroadcast, if late then AddLock(LATE) else Idle]
    ensures s.workers == [AtLock] && s.mem.count == 0 && s.mem.threadCount == s.mem.started == 1
  {
    s := SmallPoolLate(late);
    s := ClientStep(s, 0, StartDestroy(1));
    s := ClientStep(s, 0, TakeLock);
    s := ClientStep(s, 0, DestroyRun);
  }

  /** The same, with client 0 joining. */
  lemma SmallPoolJoining(late: bool) returns (s: State)
    ensures Reachable(s) && s.creator.Created? && !s.freed && s.lock == None && s.mem.shutdown == Graceful
    ensures s.closing.Some? && s.closing.value.closer == Client(0) && s.failedSignals == 0
    ensures s.clients == [DestroyJoin(0, 0), if late then AddLock(LATE) else Idle]
    ensures s.workers == [AtLock] && s.mem.count == 0 && s.mem.threadCount == s.mem.started == 1
  {
    s := SmallPoolClosing(late);
    s := ClientStep(s, 0, BroadcastAll);
    s := ClientStep(s, 0, DestroyRelease);
  }

  /** A second destroy while the first is joining: the first then never returns 0, in any run from there. */
  lemma SecondDestroyDeadlocks()
    ensures exists s :: Reachable(s) && InProgress(s) && Doomed(s) && s.failedSignals == 0
                        && forall steps :: IsRun(s, steps) ==> !Returned(Exec(s, steps))
  {
    var s := SmallPoolJoining(false);
    s := ClientStep(s, 1, StartDestroy(1));
    s := ClientStep(s, 1, TakeLock);
    ReachableInv(s);
    forall steps | IsRun(s, steps) ensures !Returned(Exec(s, steps)) { DoomedForever(s, steps); }
  }

  /** The small pool with its worker gone and client 1 still about to take the lock. */
  lemma SmallPoolExited() returns (s: State)
    ensures Reachable(s) && s.creator.Created? && !s.freed && s.lock == None
    ensures s.clients == [DestroyJoin(0, 0), AddLock(LATE)] && s.workers == [Exited]
    ensures s.mem.threadCount == 1 && s.mem.started == 0
  {
    s := SmallPoolJoining(true);
    s := WorkStep(s, 0, Acquire);
    s := WorkStep(s, 0, Test);
    s := WorkStep(s, 0, DropStarted);
    s := WorkStep(s, 0, ExitRelease);
  }

  /** A client that called add before the destroy can still be about to take the lock when the pool is freed. */
  lemma FreedUnderClient()
    ensures exists s :: Reachable(s) && s.freed && 1 < |s.clients| && s.clients[1].AddLock? && MidCall(s, 1)
  {
    var s := SmallPoolExited();
    s := ClientStep(s, 0, JoinNext);
    s := ClientStep(s, 0, JoinDone);
    s := ClientStep(s, 0, FreePool);
    UseAfterFreeIff(s, 1);
  }

  /** A rollback whose lock fails: create returns NULL, and the thread it had made and the pool stay. */
  lemma RollbackLeavesPool()
    ensures exists s :: Reachable(s) && s.creator == RollingBack(1, DestroyReturned(LOCK_FAILURE))
                        && !s.freed && s.mem.started == 1 && |s.workers| == 2 && s.workers[0].AtLock?
  {
    var p := Params(2, [Task(0, 0)], 0);
    ReachableInit(p);
    var s := Init(p);
    s := StartStep(s, Spawn);
    s := StartStep(s, CountThread);
    s := StartStep(s, LoadStarted);
    s := StartStep(s, StoreStarted);
    s := StartStep(s, SpawnFails);
    ReachableStep(s, CallStep(Creator, LockFails));
    s := DoCall(s, Creator, LockFails);
  }

  /** The small pool with its worker asleep. */
  lemma SmallPoolAsleep() returns (s: State)
    ensures Reachable(s) && s.creator.Created? && !s.freed && s.lock == None && s.failedSignals == 0
    ensures s.workers == [Asleep] && s.clients == [Idle, Idle]
    ensures s.mem.count == 0 && s.mem.tail == 0 && |s.mem.queue| == 1 && s.mem.shutdown == Open
  {
    s := SmallPool();
    s := WorkStep(s, 0, Acquire);
    s := WorkStep(s, 0, Test);
  }

  /** A failed signal leaves a pending task with every worker asleep and the lock free. */
  lemma FailedSignalStrands()
    ensures exists s :: Reachable(s) && Neglected(s) && s.lock == None && s.failedSignals == 1
  {
    var s := SmallPoolAsleep();
    s := ClientStep(s, 0, StartAdd(Task(1, 0)));
    s := ClientStep(s, 0, TakeLock);
    s := ClientStep(s, 0, AddRun);
    s := ClientStep(s, 0, SignalFails);
    s := ClientStep(s, 0, AddRelease);
  }
}
