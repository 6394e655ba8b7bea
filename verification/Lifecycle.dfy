/** Creation, lock discipline, and the lifetime of the pool. */
module LifecycleTheorems {
  import opened PoolTypes
  import opened PoolMachine
  import opened Weights
  import opened PoolInvariant
  import opened PoolInvariantProof
  import opened PoolRuns

  // ---------- Lock discipline ----------

  function Actor(step: Step): Tid {
    match step
    case CreatorStep(_) => Creator
    case WorkerStep(i, _) => Worker(i)
    case CallStep(tid, _) => tid
  }

  /** At most one thread is between taking and releasing the lock, and it is the recorded owner. */
  lemma MutualExclusion(s: State, a: Tid, b: Tid)
    requires Reachable(s) && Holds(s, a) && Holds(s, b)
    ensures a == b && s.lock == Some(a)
  {
    ReachableInv(s);
    assert Holds(s, a) <==> s.lock == Some(a);
    assert Holds(s, b) <==> s.lock == Some(b);
  }

  /** The step decides on, or changes, the shared queue or the shutdown flag, or it releases the lock. */
  predicate NeedsLock(step: Step) {
    match step
    case CreatorStep(_) => false
    case WorkerStep(_, act) => act.Test? || act.GrabRelease? || act.DropStarted? || act.ExitRelease?
    case CallStep(_, act) =>
      act.AddRun? || act.SignalWakes? || act.SignalNobody? || act.SignalFails? || act.AddRelease?
      || act.DestroyRun? || act.BroadcastAll? || act.BroadcastFails? || act.DestroyRelease?
  }

  lemma CallDiscipline(s: State, c: Tid, act: CallAct, t: State)
    requires LockOk(s) && CallEnabled(s, c, act) && Moved(s, c, act, t)
    ensures NeedsLock(CallStep(c, act)) ==> s.lock == Some(c)
    ensures !NeedsLock(CallStep(c, act)) ==> t.mem == s.mem
    ensures s.lock.Some? && t.lock != s.lock ==> c == s.lock.value
  {
    assert Holds(s, c) <==> s.lock == Some(c);
  }

  lemma WorkDiscipline(s: State, i: nat, act: WorkerAct)
    requires LockOk(s) && WorkerEnabled(s, i, act)
    ensures NeedsLock(WorkerStep(i, act)) ==> s.lock == Some(Worker(i))
    ensures !NeedsLock(WorkerStep(i, act)) ==> DoWorker(s, i, act).mem == s.mem
    ensures s.lock.Some? && DoWorker(s, i, act).lock != s.lock ==> s.lock.value == Worker(i)
  {
    assert Holds(s, Worker(i)) <==> s.lock == Some(Worker(i));
  }

  /** Every access to head, tail, count, queue and shutdown is made by the owner of the lock, and only the
      owner releases it. What steps that need no lock may change is started and thread_count: by the creator
      before any client or exiting worker exists. */
  lemma LockDiscipline(s: State, step: Step)
    requires Reachable(s) && Enabled(s, step)
    ensures NeedsLock(step) ==> s.lock == Some(Actor(step))
    ensures !NeedsLock(step) ==>
              Do(s, step).mem.(started := s.mem.started, threadCount := s.mem.threadCount) == s.mem
    ensures !NeedsLock(step) && Do(s, step).mem != s.mem ==>
              step.CreatorStep? && Starting(s) && forall i :: 0 <= i < |s.workers| ==> !Leaving(s.workers[i])
    ensures s.lock.Some? && Do(s, step).lock != s.lock ==> Actor(step) == s.lock.value
  {
    ReachableInv(s);
    match step {
      case CreatorStep(act) =>
      case WorkerStep(i, act) => WorkDiscipline(s, i, act);
      case CallStep(c, act) =>
        CallMoved(s, c, act);
        CallDiscipline(s, c, act, DoCall(s, c, act));
    }
  }

  /** No task body runs while its worker owns the lock, except inside an add of its own. */
  lemma TasksRunUnlocked(s: State, i: nat)
    requires Reachable(s) && i < |s.workers| && s.workers[i].Busy? && Resting(s.workers[i].call)
    ensures s.lock != Some(Worker(i))
  {
    ReachableInv(s);
    assert Holds(s, Worker(i)) <==> s.lock == Some(Worker(i));
  }

  // ---------- Creation ----------

  /** Live-worker accounting at every moment: started is the number of workers made and not past their
      own decrement, less the one the creator has just made and not yet counted. */
  lemma StartedAccounting(s: State)
    requires Reachable(s)
    ensures s.mem.started == Sum(LiveW, s.workers) - (if Lagging(s) then 1 else 0)
    ensures s.mem.threadCount == SpawnedBy(s.creator, |s.workers|) - (if s.creator.BumpCount? then 1 else 0)
    ensures forall j :: 0 <= j < |s.workers| ==>
              (s.workers[j].NotCreated? <==> j >= SpawnedBy(s.creator, |s.workers|))
  {
    ReachableInv(s);
  }

  /** The creator's unlocked started++ loses no update: between its read and its write nobody else writes,
      and all through the start loop the flag is unset, so that no worker can be on its way out. */
  lemma NoLostIncrement(s: State)
    requires Reachable(s) && Starting(s)
    ensures s.creator.WriteStarted? ==> s.creator.value == s.mem.started
    ensures s.mem.shutdown == Open && s.mem.count == 0
    ensures forall i :: 0 <= i < |s.workers| ==>
              var pc := s.workers[i];
              pc.NotCreated? || pc.AtLock? || pc.Testing? || pc.Asleep? || pc.Woken?
  {
    ReachableInv(s);
  }

  lemma EmptyRing(f: Fields)
    requires RingOk(f, [], [])
    ensures f.head == f.tail == f.count == 0
  {
    ModUnique(0, |f.queue|, 0, 0);
  }

  /** Create that succeeds returns a pool with all its threads, none missing, and an empty ring. */
  lemma CreateReturnsPool(s: State)
    requires Reachable(s) && CreatorEnabled(s, FinishCreate)
    ensures var t := DoCreator(s, FinishCreate);
            && t.mem.threadCount == t.mem.started == |t.workers| > 0
            && (forall i :: 0 <= i < |t.workers| ==> !t.workers[i].NotCreated? && !Leaving(t.workers[i]))
            && t.mem.head == t.mem.tail == t.mem.count == 0
            && t.mem.shutdown == Open && t.accepted == [] && !t.freed
  {
    ReachableInv(s);
    LivePrefix(s.workers, |s.workers|);
    EmptyRing(s.mem);
  }

  /** The pool that create returns is the one its caller asked for: so many threads, a ring of that size. */
  lemma CreatedAsAsked(p: Params, steps: seq<Step>)
    requires 0 < p.threadCount <= 64 && 0 < |p.queue| <= 65536 && IsRun(Init(p), steps)
    ensures var s := Exec(Init(p), steps);
            && |s.workers| == p.threadCount && |s.mem.queue| == |p.queue| && |s.clients| == p.clients
            && (s.creator.Created? ==> s.mem.threadCount == p.threadCount)
            && (!s.creator.Created? ==> s.mem.threadCount <= p.threadCount)
            && (CreatorEnabled(s, FinishCreate) ==>
                  DoCreator(s, FinishCreate).mem.threadCount == DoCreator(s, FinishCreate).mem.started == p.threadCount)
  {
    InitOk(p);
    RunExtends(Init(p), steps);
    var s := Exec(Init(p), steps);
    if CreatorEnabled(s, FinishCreate) {
      assert Reachable(s);
      CreateReturnsPool(s);
    }
  }

  /** Create that fails at thread i ignores what its own destroy returns. Once that call has ended, the pool is
      freed if and only if the call returned 0; then exactly the i threads it had made have exited. In every
      case thread_count is i and no task was ever accepted; if the lock failed, all i threads are still there. */
  lemma CreateRollsBack(s: State)
    requires Reachable(s) && s.creator.RollingBack?
    requires s.creator.call.DestroyReturned? || s.creator.call.ReturnedHolding?
    ensures s.freed <==> s.creator.call == DestroyReturned(0)
    ensures s.mem.threadCount == s.creator.next < |s.workers| && s.accepted == [] && s.completed == []
    ensures s.freed ==> s.mem.started == 0
    ensures s.freed ==> forall i :: 0 <= i < |s.workers| ==>
              if i < s.creator.next then s.workers[i].Exited? else s.workers[i].NotCreated?
    ensures s.creator.call == DestroyReturned(-2) ==>
              s.mem.shutdown == Open && s.mem.started == s.creator.next
    ensures s.creator.call.ReturnedHolding? ==>
              s.creator.call.err == -2 && s.lock == Some(Creator) && s.mem.started == s.creator.next
    ensures s.creator.call in {DestroyReturned(0), DestroyReturned(-2), DestroyReturned(-5), ReturnedHolding(-2)}
    ensures s.creator.call != DestroyReturned(-2) ==> s.mem.shutdown == Immediate
  {
    ReachableInv(s);
    assert CallOk(s, Creator);
    assert Holds(s, Creator) <==> s.lock == Some(Creator);
    if !s.broadcast { LivePrefix(s.workers, s.creator.next); }
    if s.freed { NoneStarted(s); }
  }

  /** What destroy's return codes mean in every reachable state. For a call that released the lock: 0 if and only
      if this call set the flag and the pool is freed, and a failed join leaves the pool alone. One that kept the
      lock returned -2 if its own broadcast failed, and -4 if not. DestroyCalls.DestroyCodes says what the code tells
      about the call itself. */
  lemma DestroyResult(s: State, tid: Tid)
    requires Reachable(s) && (CallOf(s, tid).DestroyReturned? || CallOf(s, tid).ReturnedHolding?)
    ensures CallOf(s, tid).DestroyReturned? ==>
              && CallOf(s, tid).err in {0, -2, -5}
              && (CallOf(s, tid).err == 0 <==> Closer(s, tid) && s.freed)
              && (CallOf(s, tid).err == -5 ==> Closer(s, tid) && !s.freed)
    ensures CallOf(s, tid).ReturnedHolding? ==>
              && CallOf(s, tid).err == (if Closer(s, tid) && !s.broadcast then -2 else -4)
              && s.lock == Some(tid) && s.mem.shutdown != Open
  {
    ReachableInv(s);
    assert CallOk(s, tid);
    assert Holds(s, tid) <==> s.lock == Some(tid);
  }

  lemma {:induction false} LivePrefix(ws: seq<Pc>, n: nat)
    requires n <= |ws| && forall j :: 0 <= j < |ws| ==> Weigh(LiveW, ws[j]) == if j < n then 1 else 0
    ensures Sum(LiveW, ws) == n
  {
    if ws != [] { LivePrefix(ws[1..], if n == 0 then 0 else n - 1); }
  }

  // ---------- What a thread can wait for ----------

  /** A pthread call fails. */
  predicate Failure(step: Step) {
    match step
    case CreatorStep(act) => act.SpawnFails?
    case WorkerStep(_, _) => false
    case CallStep(_, act) => act.LockFails? || act.SignalFails? || act.BroadcastFails? || act.JoinFails?
  }

  ghost predicate CanStep(s: State, tid: Tid) {
    exists step :: Actor(step) == tid && !Failure(step) && Enabled(s, step)
  }

  /** The call waits for the lock or for a worker to exit, or went away with the lock. */
  predicate CallWaits(s: State, call: Call) {
    match call
    case AddLock(_) => s.lock.Some?
    case DestroyLock(_) => s.lock.Some?
    case DestroyJoin(j, _) => j < s.mem.threadCount && j < |s.workers| && !s.workers[j].Exited?
    case DestroyFree => s.lock.Some?
    case ReturnedHolding(_) => true
    case _ => false
  }

  /** Beside that, a thread waits only for create to make it or to return the pool, or is at its end. A sleeper does
      not wait, since it may wake up spuriously. */
  predicate Waits(s: State, tid: Tid) {
    match tid
    case Creator => s.creator.Created? || (s.creator.RollingBack?
                                           && (s.creator.call.DestroyReturned? || CallWaits(s, s.creator.call)))
    case Worker(i) =>
      i < |s.workers| &&
      (match s.workers[i]
       case NotCreated => true
       case AtLock => s.lock.Some?
       case Woken => s.lock.Some?
       case Busy(_, _, call) => CallWaits(s, call)
       case Exited => true
       case _ => false)
    case Client(c) => c < |s.clients| && (!s.creator.Created? || CallWaits(s, s.clients[c]))
  }

  /** The action, other than a failure, that a call in progress is due for. */
  lemma CallDue(s: State, tid: Tid) returns (act: CallAct)
    requires Reachable(s) && Caller(s, tid) && (tid.Client? ==> !s.freed)
    requires !Resting(CallOf(s, tid)) && !CallWaits(s, CallOf(s, tid))
    ensures CallEnabled(s, tid, act) && !Failure(CallStep(tid, act))
  {
    ReachableInv(s);
    assert CallOk(s, tid);
    match CallOf(s, tid) {
      case AddLock(_) => act := TakeLock;
      case AddBody(_) => act := AddRun;
      case AddSignal(_, _) =>
        if i: nat :| i < |s.workers| && s.workers[i].Asleep? { act := SignalWakes(i); } else { act := SignalNobody; }
      case AddUnlock(_, _, _) => act := AddRelease;
      case DestroyLock(_) => act := TakeLock;
      case DestroyBody(_) => act := DestroyRun;
      case DestroyBroadcast => act := BroadcastAll;
      case DestroyUnlock => act := DestroyRelease;
      case DestroyJoin(j, _) => act := if j < s.mem.threadCount then JoinNext else JoinDone;
      case _ => act := FreePool;
    }
  }

  lemma NothingDue(s: State, step: Step)
    requires Reachable(s) && Waits(s, Actor(step)) && !Failure(step)
    ensures !Enabled(s, step)
  {
    ReachableInv(s);
    if step.CallStep? {
      if CallOf(s, step.tid).DestroyFree? && step.act.FreePool? { FreeNeverRefuses(s, step.tid); }
    }
  }

  /** Without failures, a thread cannot take a step if and only if it waits for one of these. Between two calls a
      task, or a client that has the pool, can call add whatever the others do, and a client destroy. */
  lemma StuckIff(s: State, tid: Tid)
    requires Reachable(s)
    requires (tid.Worker? ==> tid.i < |s.workers|) && (tid.Client? ==> tid.c < |s.clients| && !s.freed)
    ensures CanStep(s, tid) <==> !Waits(s, tid)
    ensures var call := CallOf(s, tid);
            var between := call.Idle? || call.AddReturned? || call.DestroyReturned?;
            && (between && ((tid.Worker? && s.workers[tid.i].Busy?) || (tid.Client? && s.creator.Created?)) ==>
                  forall t :: CallEnabled(s, tid, StartAdd(t)))
            && (tid.Client? && s.creator.Created? && between ==> forall f :: CallEnabled(s, tid, StartDestroy(f)))
  {
    if Waits(s, tid) {
      forall step | Actor(step) == tid && !Failure(step) ensures !Enabled(s, step) { NothingDue(s, step); }
    } else {
      var step := StepDue(s, tid);
    }
  }

  ghost predicate CanFail(s: State, tid: Tid) {
    exists step :: Actor(step) == tid && Failure(step) && Enabled(s, step)
  }

  /** The next thing the thread does is a pthread call whose result the code looks at, unlocking aside. */
  predicate AtPthreadCall(s: State, tid: Tid) {
    var call := CallOf(s, tid);
    || call.AddLock? || call.DestroyLock? || call.AddSignal? || call.DestroyBroadcast?
    || (call.DestroyJoin? && call.next < s.mem.threadCount)
    || (tid.Creator? && s.creator.Spawning? && s.creator.next < |s.workers|)
  }

  /** Such a call may fail at any time, whatever the other threads have done. */
  lemma CanFailIff(s: State, tid: Tid)
    requires Reachable(s) && (tid.Client? ==> !s.freed)
    ensures CanFail(s, tid) <==> AtPthreadCall(s, tid)
  {
    if AtPthreadCall(s, tid) {
      var call := CallOf(s, tid);
      var act := if call.AddLock? || call.DestroyLock? then LockFails else if call.AddSignal? then SignalFails
                 else if call.DestroyBroadcast? then BroadcastFails else JoinFails;
      var step := if tid.Creator? && s.creator.Spawning? then CreatorStep(SpawnFails) else CallStep(tid, act);
      assert Actor(step) == tid && Failure(step) && Enabled(s, step);
    }
  }

  lemma StepDue(s: State, tid: Tid) returns (step: Step)
    requires Reachable(s) && !Waits(s, tid)
    requires (tid.Worker? ==> tid.i < |s.workers|) && (tid.Client? ==> tid.c < |s.clients| && !s.freed)
    ensures Actor(step) == tid && !Failure(step) && Enabled(s, step)
  {
    ReachableInv(s);
    assert CallOk(s, tid);
    if Caller(s, tid) && !Resting(CallOf(s, tid)) {
      var act := CallDue(s, tid);
      step := CallStep(tid, act);
    } else if tid.Client? {
      step := CallStep(tid, StartDestroy(0));
    } else {
      match tid {
        case Creator => step := CreatorStep(CreatorDue(s.creator, |s.workers|));
        case Worker(i) => step := WorkerStep(i, WorkerDue(s.workers[i]));
      }
    }
  }

  function WorkerDue(pc: Pc): WorkerAct {
    match pc
    case Testing => Test
    case Asleep => WakeUp
    case Grabbed(_, _) => GrabRelease
    case Busy(_, _, _) => FinishTask
    case Exiting => DropStarted
    case ExitUnlock => ExitRelease
    case _ => Acquire
  }

  function CreatorDue(creator: CreatorPc, n: nat): CreatorAct {
    match creator
    case Spawning(i) => if i < n then Spawn else FinishCreate
    case BumpCount(_) => CountThread
    case ReadStarted(_) => LoadStarted
    case _ => StoreStarted
  }

  // ---------- Lifetime ----------

  /** After the pool is freed no worker and no creator can take any step, so none touches the pool. It was freed
      by the destroy that set the flag, which returned 0. */
  lemma NothingAfterFree(s: State, step: Step)
    requires Reachable(s) && s.freed
    ensures !Actor(step).Client? ==> !Enabled(s, step)
    ensures s.mem.started == 0 && s.lock == None
    ensures forall i :: 0 <= i < |s.workers| ==> s.workers[i].Exited? || s.workers[i].NotCreated?
    ensures s.closing.Some? && CallOf(s, s.closing.value.closer) == DestroyReturned(0)
  {
    ReachableInv(s);
    NoneStarted(s);
    NothingEnabled(s, step);
  }

  /** The client has begun a call on the pool and what it does next is an action of that call. */
  ghost predicate MidCall(s: State, c: nat) {
    exists act :: CallReady(s, Client(c), act) && !act.StartAdd? && !act.StartDestroy?
  }

  predicate BeforeLock(call: Call) {
    call.AddLock? || call.DestroyLock?
  }

  /** Use after free: when the pool is freed, a client still has an action of a begun call to take if and only
      if it is about to take the lock; it can be nowhere else in a call. So nobody else frees it again either. */
  lemma UseAfterFreeIff(s: State, c: nat)
    requires Reachable(s) && s.freed && c < |s.clients|
    ensures Resting(s.clients[c]) || BeforeLock(s.clients[c])
    ensures MidCall(s, c) <==> BeforeLock(s.clients[c])
  {
    ReachableInv(s);
    assert CallOk(s, Client(c));
    assert Holds(s, Client(c)) <==> s.lock == Some(Client(c));
    if BeforeLock(s.clients[c]) { assert CallReady(s, Client(c), LockFails); }
  }

  /** The condition before the free: it leaves a client in the middle of a call if and only if some client is
      waiting for the lock when the destroy frees the pool. */
  lemma FreeIsSafeIff(s: State, tid: Tid)
    requires Reachable(s) && CallEnabled(s, tid, FreePool)
    ensures (exists c :: 0 <= c < |s.clients| && MidCall(DoCall(s, tid, FreePool), c)) <==>
            (exists c :: 0 <= c < |s.clients| && BeforeLock(s.clients[c]))
  {
    var t := DoCall(s, tid, FreePool);
    FreeNeverRefuses(s, tid);
    ReachableStep(s, CallStep(tid, FreePool));
    CallMoved(s, tid, FreePool);
    forall c | 0 <= c < |s.clients|
      ensures MidCall(t, c) <==> BeforeLock(s.clients[c])
    {
      UseAfterFreeIff(t, c);
      assert CallOf(t, Client(c)) == t.clients[c] && CallOf(s, Client(c)) == s.clients[c];
    }
  }

  /** The guard of free never refuses: whoever reaches it finds started at zero. */
  lemma FreeNeverRefuses(s: State, tid: Tid)
    requires Reachable(s) && CallOf(s, tid).DestroyFree?
    ensures s.mem.started == 0 && !s.freed && AllExited(s, s.mem.threadCount)
    ensures CallEnabled(s, tid, FreePool) ==> DoCall(s, tid, FreePool).freed
  {
    ReachableInv(s);
    assert CallOk(s, tid);
    NoneStarted(s);
  }

  /** What a return code of add tells in any later state: 0 means queued; -3 and -4 mean not queued,
      and -4 that the flag is set; -1 means a NULL routine. Refinement.AddCodeIsItsEvent says
      what the code tells about the call itself. */
  lemma AddResult(s: State, tid: Tid)
    requires Reachable(s) && CallOf(s, tid).AddReturned?
    ensures var call := CallOf(s, tid);
            && (call.slot.Some? ==> call.slot.value < |s.accepted| && s.accepted[call.slot.value] == call.task)
            && (call.err in {0, -1, -2, -3, -4})
            && (call.err == -1 <==> call.task.routine == 0)
            && (call.err == 0 ==> call.slot.Some?)
            && (call.err in {-1, -3, -4} ==> call.slot == None)
            && (call.err == -4 ==> s.mem.shutdown != Open)
            && (call.err != 0 && call.slot.Some? ==> call.err == -2 && s.failedSignals > 0)
  {
    ReachableInv(s);
    assert CallOk(s, tid);
  }

  /** No worker ever calls a NULL routine. */
  lemma NeverCallsNull(s: State, i: nat)
    requires Reachable(s) && i < |s.workers| && (s.workers[i].Grabbed? || s.workers[i].Busy?)
    ensures s.workers[i].task.routine != 0
  {
    ReachableInv(s);
    assert s.grabbed[s.workers[i].ticket] == s.accepted[s.workers[i].ticket];
  }
}
