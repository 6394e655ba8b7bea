/**
 The transition system against the class: started on a pool with the same fields, the critical sections, and
 a whole call of add that nobody interrupts, end in the same fields, histories and codes as the methods.
 */
module Agreement {
  import opened PoolTypes
  import opened PoolMachine
  import opened PoolInvariantProof
  import opened PoolRuns
  import opened ThreadPools

  ghost predicate SameFields(pool: ThreadPool, s: State)
    reads pool, pool.queue
  {
    pool.View() == s.mem && pool.accepted == s.accepted && pool.grabbed == s.grabbed
  }

  method AddAgrees(pool: ThreadPool, ghost s: State, ghost c: Tid, task: Task) returns (err: int)
    requires pool.Valid() && SameFields(pool, s) && CallEnabled(s, c, AddRun)
    requires CallOf(s, c).task == task && task.routine != 0
    modifies pool, pool.queue
    ensures pool.Valid() && SameFields(pool, DoCall(s, c, AddRun))
    ensures err == match NextCall(s, c, AddRun)
                   case AddUnlock(_, code, _) => code
                   case _ => 0
  {
    CallMoved(s, c, AddRun);
    err := ThreadPool.Add(pool, task.routine, task.argument, true, true, true);
  }

  method TurnAgrees(pool: ThreadPool, ghost s: State, ghost i: nat) returns (turn: Turn, task: Task)
    requires pool.Valid() && SameFields(pool, s) && WorkerEnabled(s, i, Test)
    modifies pool
    ensures pool.Valid() && SameFields(pool, DoWorker(s, i, Test))
    ensures match DoWorker(s, i, Test).workers[i]
            case Grabbed(_, t) => turn == Take && task == t
            case Exiting => turn == Leave
            case _ => turn == Wait
  {
    turn, task := pool.TakeTurn();
  }

  // ---------- A whole call of add ----------

  ghost predicate CanMove(s: State, c: Tid) {
    Caller(s, c) && (c.Client? ==> !s.freed)
  }

  /** The caller moves alone: a step that leaves the fields and histories alone. */
  lemma SoloStep(s: State, c: Tid, act: CallAct) returns (t: State)
    requires CallEnabled(s, c, act) && !act.AddRun? && !act.DestroyRun? && !act.FreePool?
    ensures IsRun(s, [CallStep(c, act)]) && Exec(s, [CallStep(c, act)]) == t == DoCall(s, c, act)
    ensures CallOf(t, c) == NextCall(s, c, act) && CanMove(t, c)
    ensures act.StartAdd? || act.StartDestroy? ==> t.lock == s.lock
    ensures t.mem == s.mem && t.accepted == s.accepted && t.grabbed == s.grabbed
  {
    t := CallRun(s, c, act);
    CallMoved(s, c, act);
  }

  lemma SoloSignal(s: State, c: Tid, signalOk: bool) returns (act: CallAct, t: State)
    requires CanMove(s, c) && CallOf(s, c).AddSignal?
    ensures CallEnabled(s, c, act) && IsRun(s, [CallStep(c, act)]) && Exec(s, [CallStep(c, act)]) == t
    ensures CallOf(t, c) == AddUnlock(CallOf(s, c).task, if signalOk then 0 else LOCK_FAILURE, Some(CallOf(s, c).entry))
    ensures CanMove(t, c) && t.mem == s.mem && t.accepted == s.accepted && t.grabbed == s.grabbed
  {
    if !signalOk {
      act := SignalFails;
    } else if i: nat :| i < |s.workers| && s.workers[i].Asleep? {
      act := SignalWakes(i);
    } else {
      act := SignalNobody;
    }
    t := SoloStep(s, c, act);
  }

  lemma SoloBody(s: State, c: Tid, signalOk: bool) returns (steps: seq<Step>, t: State)
    requires CanMove(s, c) && CallOf(s, c).AddBody? && s.mem.tail < |s.mem.queue|
    ensures IsRun(s, steps) && Exec(s, steps) == t && CanMove(t, c) && CallOf(t, c).AddUnlock?
    ensures CallOf(t, c).task == CallOf(s, c).task
    ensures CallOf(t, c).err == (if AddVerdict(s.mem) != 0 then AddVerdict(s.mem)
                                 else if signalOk then 0 else LOCK_FAILURE)
    ensures t.grabbed == s.grabbed
    ensures t.mem == (if AddVerdict(s.mem) == 0 then Enqueue(s.mem, CallOf(s, c).task) else s.mem)
    ensures t.accepted == s.accepted + (if AddVerdict(s.mem) == 0 then [CallOf(s, c).task] else [])
  {
    var s1 := CallRun(s, c, AddRun);
    CallMoved(s, c, AddRun);
    if AddVerdict(s.mem) != 0 {
      steps, t := [CallStep(c, AddRun)], s1;
    } else {
      var act, s2 := SoloSignal(s1, c, signalOk);
      RunStep(s, CallStep(c, AddRun), [CallStep(c, act)]);
      steps, t := [CallStep(c, AddRun)] + [CallStep(c, act)], s2;
    }
  }

  /** From the lock on. */
  lemma SoloFromLock(s: State, c: Tid, lockOk: bool, signalOk: bool) returns (steps: seq<Step>)
    requires CanMove(s, c) && CallOf(s, c).AddLock? && s.lock == None && s.mem.tail < |s.mem.queue|
    ensures IsRun(s, steps) && CallOf(Exec(s, steps), c).AddReturned?
    ensures CallOf(Exec(s, steps), c).task == CallOf(s, c).task
    ensures var t, verdict, task := Exec(s, steps), AddVerdict(s.mem), CallOf(s, c).task;
            && CallOf(t, c).err == (if !lockOk then LOCK_FAILURE else if verdict != 0 then verdict
                                    else if signalOk then 0 else LOCK_FAILURE)
            && t.grabbed == s.grabbed
            && t.mem == (if lockOk && verdict == 0 then Enqueue(s.mem, task) else s.mem)
            && t.accepted == s.accepted + (if lockOk && verdict == 0 then [task] else [])
  {
    if !lockOk {
      var t := SoloStep(s, c, LockFails);
      steps := [CallStep(c, LockFails)];
    } else {
      var s1 := SoloStep(s, c, TakeLock);
      var middle, s2 := SoloBody(s1, c, signalOk);
      var t := SoloStep(s2, c, AddRelease);
      var last := [CallStep(c, AddRelease)];
      RunConcat(s1, middle, last);
      RunStep(s, CallStep(c, TakeLock), middle + last);
      steps := [CallStep(c, TakeLock)] + (middle + last);
    }
  }

  /** Outside the pool's code: a client that create has given the pool to, or a worker running a task. */
  predicate MayCall(s: State, c: Tid) {
    match c
    case Creator => false
    case Worker(i) => i < |s.workers| && s.workers[i].Busy? && Resting(s.workers[i].call)
    case Client(k) => k < |s.clients| && Resting(s.clients[k]) && s.creator.Created? && !s.freed
  }

  /** A call of add that nobody interrupts: its code and its effect, for each outcome of lock and signal. */
  lemma SoloAdd(s: State, c: Tid, task: Task, lockOk: bool, signalOk: bool) returns (steps: seq<Step>)
    requires MayCall(s, c) && s.lock == None && s.mem.tail < |s.mem.queue|
    ensures IsRun(s, [CallStep(c, StartAdd(task))] + steps)
    ensures var t := Exec(s, [CallStep(c, StartAdd(task))] + steps);
            var enters := task.routine != 0 && lockOk && s.mem.count != |s.mem.queue| && s.mem.shutdown == Open;
            && CallOf(t, c).AddReturned? && CallOf(t, c).task == task
            && CallOf(t, c).err == (if task.routine == 0 then -1 else if !lockOk then -2
                                    else if s.mem.count == |s.mem.queue| then -3
                                    else if s.mem.shutdown != Open then -4 else if signalOk then 0 else -2)
            && t.grabbed == s.grabbed
            && t.mem == (if enters then Enqueue(s.mem, task) else s.mem)
            && t.accepted == s.accepted + (if enters then [task] else [])
  {
    var s1 := SoloStep(s, c, StartAdd(task));
    steps := [];
    if task.routine != 0 { steps := SoloFromLock(s1, c, lockOk, signalOk); }
    RunStep(s, CallStep(c, StartAdd(task)), steps);
  }

  /** A task may itself add: on an open pool with room its call gets through and its task enters. */
  lemma TaskCanAdd(s: State, i: nat, task: Task)
    requires Reachable(s) && i < |s.workers| && s.workers[i].Busy? && Resting(s.workers[i].call)
    requires s.lock == None && s.mem.shutdown == Open && s.mem.count != |s.mem.queue| && task.routine != 0
    ensures exists steps ::
              && IsRun(s, steps) && Reachable(Exec(s, steps))
              && CallOf(Exec(s, steps), Worker(i)).AddReturned? && CallOf(Exec(s, steps), Worker(i)).err == 0
              && Exec(s, steps).accepted == s.accepted + [task] && Exec(s, steps).grabbed == s.grabbed
  {
    ReachableInv(s);
    var steps := SoloAdd(s, Worker(i), task, true, true);
    ReachableRun(s, [CallStep(Worker(i), StartAdd(task))] + steps);
  }

  /** threadpool_add and an uninterrupted call in the transition system: same code, fields and histories. */
  method WholeAddAgrees(pool: ThreadPool, ghost s: State, ghost c: Tid, task: Task, lockOk: bool, signalOk: bool)
    returns (err: int, ghost steps: seq<Step>)
    requires pool.Valid() && SameFields(pool, s) && MayCall(s, c) && s.lock == None
    modifies pool, pool.queue
    ensures steps != [] && steps[0] == CallStep(c, StartAdd(task))
    ensures IsRun(s, steps) && pool.Valid() && SameFields(pool, Exec(s, steps))
    ensures CallOf(Exec(s, steps), c).AddReturned? && CallOf(Exec(s, steps), c).err == err
  {
    steps := SoloAdd(s, c, task, lockOk, signalOk);
    steps := [CallStep(c, StartAdd(task))] + steps;
    err := ThreadPool.Add(pool, task.routine, task.argument, lockOk, signalOk, true);
  }
}
